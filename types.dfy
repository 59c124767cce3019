/** The one entity of the application: an experience listing. */
module Types {
  import opened Wrappers

  /** A listed activity; `attendees` holds the ids of users who expressed interest. */
  datatype Experience = Experience(
    id: string,
    title: string,
    description: string,
    date: string,
    time: string,
    location: string,
    category: string,
    imageUrl: Option<string>,
    creatorId: string,
    creatorName: string,
    attendees: seq<string>)

  /** The fields a creator supplies: an experience without id, attendees, creatorId and creatorName. */
  datatype ExperienceData = ExperienceData(
    title: string,
    description: string,
    date: string,
    time: string,
    location: string,
    category: string,
    imageUrl: Option<string>)

  /** The creator-supplied part of a record. */
  function DataOf(e: Experience): ExperienceData {
    ExperienceData(e.title, e.description, e.date, e.time, e.location, e.category, e.imageUrl)
  }

  /** A record that lists no user twice and does not list its own creator. */
  predicate AttendeesWellFormed(e: Experience) {
    && e.creatorId !in e.attendees
    && forall i, j :: 0 <= i < j < |e.attendees| ==> e.attendees[i] != e.attendees[j]
  }
}
