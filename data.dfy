/**
 * The in-memory experience store: a process-wide list of records, newest
 * first, changed only by adding a record at the head and by appending a user
 * to one record's attendees.
 */
module Data {
  import opened Wrappers
  import opened Types

  /** The placeholder identity every new record is attributed to. */
  const MOCK_USER_ID := "mockUser123"
  const MOCK_USER_NAME := "Current User"

  /** The descriptions of the seed records. */
  const MUSIC_FEST_DESCRIPTION :=
    "Looking for someone to join me at the annual Summer "
      + "Music Fest. Great bands, good vibes! Pack light, bring "
      + "sunscreen, and be ready to dance. We can meet near the "
      + "main entrance."

  const HIKING_DESCRIPTION :=
    "Planning a scenic hike this weekend. Approximately 5 "
      + "miles, moderate difficulty. Need a buddy who enjoys "
      + "nature and a good walk. Bring water and snacks. Meet at "
      + "the trailhead parking lot."

  const RESTAURANT_DESCRIPTION :=
    "Want to check out the new Italian place downtown? Heard "
      + "great things about their pasta. Looking for a fellow "
      + "foodie! Let's meet there."

  const GALLERY_DESCRIPTION :=
    "Exploring the modern art gallery next Saturday. "
      + "Features contemporary artists. Anyone interested in "
      + "joining? We can grab coffee afterwards."

  const EUROPE_TRIP_DESCRIPTION :=
    "Planning a 2-week backpacking trip through Europe in "
      + "August. Itinerary includes Paris, Rome, and Berlin. "
      + "Seeking a travel companion to share costs and "
      + "experiences."

  /** The five records the store holds when the process starts. */
  function Seed(): seq<Experience> {
    [
      Experience("1", "Summer Music Fest",
        MUSIC_FEST_DESCRIPTION,
        "2024-07-20T00:00:00Z", "14:00", "Central Park", "Music",
        Some("https://picsum.photos/seed/musicfest/800/500"), "user123", "Alex", ["user456", "user789"]),
      Experience("2", "Weekend Hiking Trip",
        HIKING_DESCRIPTION,
        "2024-07-13T00:00:00Z", "09:00", "Mountain View Trail", "Sports",
        Some("https://picsum.photos/seed/hiking/800/500"), "user456", "Sam", ["user789"]),
      Experience("3", "New Italian Restaurant Opening",
        RESTAURANT_DESCRIPTION,
        "2024-07-18T00:00:00Z", "19:30", "Downtown Eats", "Food",
        Some("https://picsum.photos/seed/foodie/800/500"), "user101", "Chloe", []),
      Experience("4", "Art Gallery Visit",
        GALLERY_DESCRIPTION,
        "2024-07-27T00:00:00Z", "11:00", "City Art Gallery", "Arts",
        Some("https://picsum.photos/seed/artgallery/800/500"), "user555", "Maria", ["user123"]),
      Experience("5", "Travel Buddy for Europe Trip",
        EUROPE_TRIP_DESCRIPTION,
        "2024-08-05T00:00:00Z", "N/A", "Europe (Multiple)", "Travel",
        Some("https://picsum.photos/seed/europetrip/800/500"), "user999", "Ben", [])
    ]
  }

  /** Every record of `s` keeps its attendee list free of duplicates and of its creator. */
  predicate AllWellFormed(s: seq<Experience>) {
    forall i :: 0 <= i < |s| ==> AttendeesWellFormed(s[i])
  }

  /** `findIndex(exp => exp.id === id)`: the position of the first record with that id, or -1. */
  function IndexOf(s: seq<Experience>, id: string): (k: int)
    ensures -1 <= k < |s|
    ensures 0 <= k ==> s[k].id == id && forall j :: 0 <= j < k ==> s[j].id != id
    ensures k == -1 <==> forall j :: 0 <= j < |s| ==> s[j].id != id
  {
    if s == [] then -1
    else if s[0].id == id then 0
    else
      var k := IndexOf(s[1..], id);
      if k == -1 then -1 else k + 1
  }

  /** The record `_addExperienceInternal` builds: the supplied fields, the mock creator, no attendees. */
  function NewRecord(id: string, data: ExperienceData): (e: Experience)
    ensures e.id == id && DataOf(e) == data
    ensures e.creatorId == MOCK_USER_ID && e.creatorName == MOCK_USER_NAME
    ensures e.attendees == []
  {
    Experience(id, data.title, data.description, data.date, data.time, data.location, data.category,
               data.imageUrl, MOCK_USER_ID, MOCK_USER_NAME, [])
  }

  /**
   * The store after `_addAttendeeInternal(id, user)`: unchanged when no record
   * has the id, when the user is the first matching record's creator or is
   * already among its attendees; otherwise that record with `user` appended.
   */
  function WithAttendee(s: seq<Experience>, id: string, user: string): seq<Experience> {
    var k := IndexOf(s, id);
    if k == -1 || s[k].creatorId == user || user in s[k].attendees then s
    else s[k := s[k].(attendees := s[k].attendees + [user])]
  }

  /** An id no record has: the store is unchanged. */
  lemma WithAttendeeNotFound(s: seq<Experience>, id: string, user: string)
    requires forall j :: 0 <= j < |s| ==> s[j].id != id
    ensures WithAttendee(s, id, user) == s
  {
  }

  /** The creator or an existing attendee: the store is unchanged. */
  lemma WithAttendeeAlreadyAssociated(s: seq<Experience>, id: string, user: string, k: nat)
    requires k < |s| && s[k].id == id && forall j :: 0 <= j < k ==> s[j].id != id
    requires user == s[k].creatorId || user in s[k].attendees
    ensures WithAttendee(s, id, user) == s
  {
  }

  /**
   * A new user: only the first record with the id changes, and only by
   * `user` appended to its attendees; every other record and the length stay.
   */
  lemma WithAttendeeAppends(s: seq<Experience>, id: string, user: string, k: nat)
    requires k < |s| && s[k].id == id && forall j :: 0 <= j < k ==> s[j].id != id
    requires user != s[k].creatorId && user !in s[k].attendees
    ensures var r := WithAttendee(s, id, user);
      && |r| == |s|
      && r[k].attendees == s[k].attendees + [user]
      && r[k].(attendees := s[k].attendees) == s[k]
      && forall j :: 0 <= j < |s| && j != k ==> r[j] == s[j]
  {
  }

  /** Changing attendee lists does not move the first record with a given id. */
  lemma {:induction false} IndexOfIgnoresAttendees(s: seq<Experience>, t: seq<Experience>, id: string)
    requires |s| == |t| && forall j :: 0 <= j < |s| ==> s[j].id == t[j].id
    ensures IndexOf(s, id) == IndexOf(t, id)
  {
    if s != [] {
      IndexOfIgnoresAttendees(s[1..], t[1..], id);
    }
  }

  /** Appending keeps every record's attendee list free of duplicates and of its creator. */
  lemma WithAttendeePreservesWellFormed(s: seq<Experience>, id: string, user: string)
    requires AllWellFormed(s)
    ensures AllWellFormed(WithAttendee(s, id, user))
  {
    var k := IndexOf(s, id);
    if k != -1 && s[k].creatorId != user && user !in s[k].attendees {
      var a := s[k].attendees + [user];
      assert forall i, j :: 0 <= i < j < |a| ==> a[i] != a[j] by {
        forall i, j | 0 <= i < j < |a| ensures a[i] != a[j] {
          if j == |a| - 1 {
            assert a[i] in s[k].attendees;
          }
        }
      }
    }
  }

  /** Expressing the same interest twice leaves the store as expressing it once. */
  lemma WithAttendeeIdempotent(s: seq<Experience>, id: string, user: string)
    ensures WithAttendee(WithAttendee(s, id, user), id, user) == WithAttendee(s, id, user)
  {
    var r := WithAttendee(s, id, user);
    IndexOfIgnoresAttendees(s, r, id);
    var k := IndexOf(s, id);
    if k != -1 {
      assert user == r[k].creatorId || user in r[k].attendees;
    }
  }

  /** Two different new users, one after the other: neither addition is lost. */
  lemma WithAttendeeBothUsers(s: seq<Experience>, id: string, u1: string, u2: string, k: nat)
    requires k < |s| && s[k].id == id && forall j :: 0 <= j < k ==> s[j].id != id
    requires u1 != u2
    requires u1 != s[k].creatorId && u1 !in s[k].attendees
    requires u2 != s[k].creatorId && u2 !in s[k].attendees
    ensures WithAttendee(WithAttendee(s, id, u1), id, u2)[k].attendees == s[k].attendees + [u1, u2]
  {
    var r := WithAttendee(s, id, u1);
    IndexOfIgnoresAttendees(s, r, id);
    assert r[k].attendees == s[k].attendees + [u1];
    assert u2 !in r[k].attendees;
    assert s[k].attendees + [u1] + [u2] == s[k].attendees + [u1, u2];
  }

  /** Every seed record lists distinct attendees and not its own creator. */
  lemma SeedWellFormed()
    ensures AllWellFormed(Seed())
  {
    var s := Seed();
    assert AttendeesWellFormed(s[0]) by {
      assert s[0].attendees[0][4] != s[0].attendees[1][4];
      assert s[0].creatorId[4] != s[0].attendees[0][4] && s[0].creatorId[4] != s[0].attendees[1][4];
    }
    assert AttendeesWellFormed(s[1]) by {
      assert s[1].creatorId[4] != s[1].attendees[0][4];
    }
    assert AttendeesWellFormed(s[3]) by {
      assert s[3].creatorId[5] != s[3].attendees[0][5];
    }
  }

  /** The process-wide store of `src/lib/data.ts`. */
  class ExperienceStore {
    var experiences: seq<Experience>

    /** The rules on attendees that the store's operations keep. */
    ghost predicate Valid()
      reads this
    {
      AllWellFormed(experiences)
    }

    /** The store as the module initialises it. */
    constructor ()
      ensures experiences == Seed()
      ensures Valid()
    {
      experiences := Seed();
      SeedWellFormed();
    }

    /** `getAllExperiences`: a copy of the whole list, in store order. */
    method GetAllExperiences() returns (all: seq<Experience>)
      ensures all == experiences
    {
      all := experiences;
    }

    /** The linear search of `findIndex`/`find` over the store. */
    method FindIndex(id: string) returns (k: int)
      ensures k == IndexOf(experiences, id)
    {
      k := 0;
      while k < |experiences|
        invariant 0 <= k <= |experiences|
        invariant forall j :: 0 <= j < k ==> experiences[j].id != id
      {
        if experiences[k].id == id {
          return;
        }
        k := k + 1;
      }
      k := -1;
    }

    /** `getExperienceById`: the first record with the id, or `None` (`null`) when there is none. */
    method GetExperienceById(id: string) returns (found: Option<Experience>)
      ensures found.None? <==> forall j :: 0 <= j < |experiences| ==> experiences[j].id != id
      ensures found.Some? ==> found.value.id == id && found.value == experiences[IndexOf(experiences, id)]
    {
      var k := FindIndex(id);
      if k == -1 {
        found := None;
      } else {
        found := Some(experiences[k]);
      }
    }

    /** `_addExperienceInternal`: the new record goes to the head, every old record moves back one place. */
    method AddExperience(id: string, data: ExperienceData) returns (created: Experience)
      modifies this
      ensures created == NewRecord(id, data)
      ensures experiences == [created] + old(experiences)
      ensures old(Valid()) ==> Valid()
    {
      created := NewRecord(id, data);
      experiences := [created] + experiences;
    }

    /** `_addAttendeeInternal`: false exactly when no record has the id; the store becomes `WithAttendee`. */
    method AddAttendee(experienceId: string, userId: string) returns (ok: bool)
      modifies this
      ensures ok <==> exists j :: 0 <= j < |old(experiences)| && old(experiences)[j].id == experienceId
      ensures experiences == WithAttendee(old(experiences), experienceId, userId)
      ensures old(Valid()) ==> Valid()
    {
      ghost var before := experiences;
      var k := FindIndex(experienceId);
      if k == -1 {
        return false;
      }
      var experience := experiences[k];
      if experience.creatorId == userId || userId in experience.attendees {
        return true;
      }
      var updated := experience.(attendees := experience.attendees + [userId]);
      experiences := experiences[k := updated];
      ok := true;
      if AllWellFormed(before) {
        WithAttendeePreservesWellFormed(before, experienceId, userId);
      }
    }
  }
}
