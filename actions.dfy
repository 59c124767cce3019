/**
 * The server actions: the server-side schema for a submitted experience, the
 * create action that validates and then adds one record, and the
 * express-interest action that adds the mock interested user to a record.
 */
module Actions {
  import opened Wrappers
  import opened Text
  import opened Types
  import opened Schema
  import Data

  /** The categories the server accepts, compared without regard to case. */
  const CATEGORIES: seq<string> := ["Music", "Sports", "Travel", "Food", "Arts", "Other"]

  const TITLE_TOO_SHORT := "Title must be at least 5 characters."
  const DESCRIPTION_TOO_SHORT := "Description must be at least 10 characters."
  const INVALID_DATE_FORMAT := "Invalid date format. Expected ISO 8601 string."
  const INVALID_TIME := "Invalid time format (HH:MM)."
  const LOCATION_TOO_SHORT := "Location must be at least 3 characters."
  const INVALID_CATEGORY := "Invalid category selected."
  const INVALID_URL := "Please enter a valid URL."

  const INVALID_DATA := "Invalid data provided. Please check the form."
  const INVALID_DATE := "Invalid date provided."
  const DATE_NOT_PROCESSED := "The provided date could not be processed."
  const EXPERIENCES_PATH := "/experiences"

  /** The user id every expression of interest is recorded under. */
  const MOCK_USER_ID_INTEREST := "mockUserInterest456"
  const MISSING_ID := "Missing experience ID."
  const INTEREST_EXPRESSED := "Interest expressed successfully."
  const INTEREST_FAILED := "Failed to express interest. Experience might not exist."

  /** The submitted form as the server receives it: each field present as a string or missing. */
  datatype RawForm = RawForm(
    title: Option<string>,
    description: Option<string>,
    date: Option<string>,
    time: Option<string>,
    location: Option<string>,
    category: Option<string>,
    imageUrl: Option<string>)

  /** What a successful parse yields: every required field present, `imageUrl` as submitted. */
  datatype ParsedForm = ParsedForm(
    title: string,
    description: string,
    date: string,
    time: string,
    location: string,
    category: string,
    imageUrl: Option<string>)

  /** The result of the create action: a redirect, or a failure for the form to display. */
  datatype CreateOutcome =
    | Redirect(path: string)
    | Failure(message: string, errors: Option<FieldErrors>)

  /** The result of the express-interest action. */
  datatype InterestOutcome = InterestOutcome(success: bool, message: string)

  /** `categories.map(c => c.toLowerCase())`. */
  function LowerAll(cs: seq<string>): seq<string> {
    seq(|cs|, i requires 0 <= i < |cs| => ToLower(cs[i]))
  }

  /** The server's category refinement: the lower-cased value is one of the lower-cased categories. */
  predicate ServerCategoryOk(value: string) {
    ToLower(value) in LowerAll(CATEGORIES)
  }

  /**
   * Each category name, lower-cased. The six names are split over two lemmas
   * so that each evaluation of `ToLower` on literals stays small for the solver.
   */
  lemma LowerCategoryNamesFirst()
    ensures ToLower("Music") == "music" && ToLower("Sports") == "sports" && ToLower("Travel") == "travel"
  {
    LowerCapitalised("Music", "music");
    LowerCapitalised("Sports", "sports");
    LowerCapitalised("Travel", "travel");
  }

  lemma LowerCategoryNamesLast()
    ensures ToLower("Food") == "food" && ToLower("Arts") == "arts" && ToLower("Other") == "other"
  {
    LowerCapitalised("Food", "food");
    LowerCapitalised("Arts", "arts");
    LowerCapitalised("Other", "other");
  }

  /** The six categories, lower-cased. */
  lemma LowerCategories()
    ensures var r := LowerAll(CATEGORIES);
      && |r| == 6
      && r[0] == "music" && r[1] == "sports" && r[2] == "travel"
      && r[3] == "food" && r[4] == "arts" && r[5] == "other"
  {
    LowerCategoryNamesFirst();
    LowerCategoryNamesLast();
  }

  /** A category passes the server exactly when it spells one of the six names in any mix of case. */
  lemma ServerCategoryIff(value: string)
    ensures ServerCategoryOk(value) <==>
      var v := ToLower(value);
      v == "music" || v == "sports" || v == "travel" || v == "food" || v == "arts" || v == "other"
  {
    LowerCategories();
    var r := LowerAll(CATEGORIES);
    var v := ToLower(value);
    if v in r {
      var i :| 0 <= i < 6 && r[i] == v;
      assert i == 0 || i == 1 || i == 2 || i == 3 || i == 4 || i == 5;
    }
    if v == "music" { assert r[0] == v; }
    if v == "sports" { assert r[1] == v; }
    if v == "travel" { assert r[2] == v; }
    if v == "food" { assert r[3] == v; }
    if v == "arts" { assert r[4] == v; }
    if v == "other" { assert r[5] == v; }
  }

  /** What each field of the server schema demands. */
  predicate ServerFieldOk(form: RawForm, lib: Library, f: Field) {
    match f
    case Title => form.title.Some? && 5 <= |form.title.value| <= 100
    case Description => form.description.Some? && 10 <= |form.description.value| <= 500
    case Date => form.date.Some? && lib.isDatetime(form.date.value)
    case Time => form.time.Some? && MatchesTimePattern(form.time.value)
    case Location => form.location.Some? && 3 <= |form.location.value| <= 100
    case Category => form.category.Some? && ServerCategoryOk(form.category.value)
    case ImageUrl => form.imageUrl.None? || form.imageUrl.value == "" || lib.isUrl(form.imageUrl.value)
  }

  /** A required string field checked for length: "Required" when missing. */
  function RequiredLengthIssues(v: Option<string>, min: nat, max: nat, tooShort: string, tooLong: string): seq<string>
    requires min <= max
  {
    match v
    case None => [REQUIRED]
    case Some(s) => LengthIssues(s, min, max, tooShort, tooLong)
  }

  /** The messages `experienceServerActionSchema` reports for one field. */
  function ServerIssues(form: RawForm, lib: Library, f: Field): (issues: seq<string>)
    ensures issues == [] <==> ServerFieldOk(form, lib, f)
  {
    match f
    case Title => RequiredLengthIssues(form.title, 5, 100, TITLE_TOO_SHORT, AT_MOST_100)
    case Description => RequiredLengthIssues(form.description, 10, 500, DESCRIPTION_TOO_SHORT, AT_MOST_500)
    case Date =>
      if form.date.None? then [REQUIRED]
      else if lib.isDatetime(form.date.value) then [] else [INVALID_DATE_FORMAT]
    case Time =>
      if form.time.None? then [REQUIRED]
      else if MatchesTimePattern(form.time.value) then [] else [INVALID_TIME]
    case Location => RequiredLengthIssues(form.location, 3, 100, LOCATION_TOO_SHORT, AT_MOST_100)
    case Category =>
      if form.category.None? then [REQUIRED]
      else if ServerCategoryOk(form.category.value) then [] else [INVALID_CATEGORY]
    case ImageUrl =>
      // `.url().optional().or(z.literal(''))`: missing, empty, or a URL
      if form.imageUrl.None? || form.imageUrl.value == "" || lib.isUrl(form.imageUrl.value) then []
      else [INVALID_URL]
  }

  /**
   * `experienceServerActionSchema.safeParse`: the parsed form when every field
   * passes, otherwise an entry for exactly the fields that fail, each with its messages.
   */
  function ValidateServer(form: RawForm, lib: Library): (r: Result<ParsedForm, FieldErrors>)
    ensures r.Ok? <==> forall f :: ServerFieldOk(form, lib, f)
    ensures r.Err? ==> forall f :: f in r.error <==> !ServerFieldOk(form, lib, f)
    ensures r.Err? ==> forall f :: f in r.error ==> r.error[f] == ServerIssues(form, lib, f)
    ensures r.Ok? ==>
      && form.title == Some(r.value.title) && form.description == Some(r.value.description)
      && form.date == Some(r.value.date) && form.time == Some(r.value.time)
      && form.location == Some(r.value.location) && form.category == Some(r.value.category)
      && form.imageUrl == r.value.imageUrl
  {
    var errors := CollectErrors(f => ServerIssues(form, lib, f));
    if errors == map[] then
      assert forall f :: ServerFieldOk(form, lib, f) by {
        forall f ensures ServerFieldOk(form, lib, f) {
          assert f !in errors;
        }
      }
      assert ServerFieldOk(form, lib, Title) && ServerFieldOk(form, lib, Description) && ServerFieldOk(form, lib, Date);
      assert ServerFieldOk(form, lib, Time) && ServerFieldOk(form, lib, Location) && ServerFieldOk(form, lib, Category);
      Ok(ParsedForm(form.title.value, form.description.value, form.date.value, form.time.value,
                    form.location.value, form.category.value, form.imageUrl))
    else
      var f :| f in errors;
      Err(errors)
  }

  /**
   * The record fields the create action hands to the store, or the failure it
   * returns: the parse's field errors, or the date error when the validated
   * date does not parse. Category is stored as given; an empty image URL becomes absent.
   */
  function PrepareExperience(form: RawForm, lib: Library): (r: Result<ExperienceData, CreateOutcome>)
    ensures ValidateServer(form, lib).Err? ==>
      r == Err(Failure(INVALID_DATA, Some(ValidateServer(form, lib).error)))
    ensures ValidateServer(form, lib).Ok? && lib.toIsoString(form.date.value).None? ==>
      r == Err(Failure(INVALID_DATE, Some(map[Date := [DATE_NOT_PROCESSED]])))
    ensures ValidateServer(form, lib).Ok? && lib.toIsoString(form.date.value).Some? ==> r.Ok?
    ensures r.Ok? ==>
      && form.title == Some(r.value.title) && form.description == Some(r.value.description)
      && lib.toIsoString(form.date.value) == Some(r.value.date)
      && form.time == Some(r.value.time)
      && form.location == Some(r.value.location)
      && form.category == Some(r.value.category)
      && (r.value.imageUrl.None? <==> form.imageUrl.None? || form.imageUrl == Some(""))
      && (r.value.imageUrl.Some? ==> form.imageUrl == r.value.imageUrl)
  {
    match ValidateServer(form, lib)
    case Err(errors) => Err(Failure(INVALID_DATA, Some(errors)))
    case Ok(data) =>
      match lib.toIsoString(data.date)
      case None => Err(Failure(INVALID_DATE, Some(map[Date := [DATE_NOT_PROCESSED]])))
      case Some(iso) =>
        // `data.imageUrl || undefined`
        var imageUrl := if data.imageUrl == Some("") then None else data.imageUrl;
        Ok(ExperienceData(data.title, data.description, iso, data.time, data.location, data.category, imageUrl))
  }

  /** What reaches the store has passed the time pattern, the category list and, when present, the URL check. */
  lemma PreparedFieldsValid(form: RawForm, lib: Library)
    requires PrepareExperience(form, lib).Ok?
    ensures var data := PrepareExperience(form, lib).value;
      && MatchesTimePattern(data.time)
      && ServerCategoryOk(data.category)
      && (data.imageUrl.Some? ==> data.imageUrl.value != "" && lib.isUrl(data.imageUrl.value))
  {
    assert ServerFieldOk(form, lib, Time) && ServerFieldOk(form, lib, Category) && ServerFieldOk(form, lib, ImageUrl);
  }

  /**
   * `createExperienceAction`: a rejected form returns a failure and leaves the
   * store alone; an accepted one adds exactly one record at the head and redirects.
   */
  method CreateExperienceAction(store: Data.ExperienceStore, form: RawForm, lib: Library, newId: string)
    returns (outcome: CreateOutcome)
    modifies store
    ensures PrepareExperience(form, lib).Err? ==>
      outcome == PrepareExperience(form, lib).error && store.experiences == old(store.experiences)
    ensures PrepareExperience(form, lib).Ok? ==>
      outcome == Redirect(EXPERIENCES_PATH)
      && store.experiences == [Data.NewRecord(newId, PrepareExperience(form, lib).value)] + old(store.experiences)
    ensures old(store.Valid()) ==> store.Valid()
  {
    var prepared := PrepareExperience(form, lib);
    if prepared.Err? {
      return prepared.error;
    }
    var created := store.AddExperience(newId, prepared.value);
    outcome := Redirect(EXPERIENCES_PATH);
  }

  /**
   * `expressInterestAction`: an empty id fails without touching the store;
   * otherwise the mock user is added through the store, and the action
   * succeeds exactly when a record has the id.
   */
  method ExpressInterestAction(store: Data.ExperienceStore, experienceId: string) returns (outcome: InterestOutcome)
    modifies store
    ensures experienceId == "" ==>
      outcome == InterestOutcome(false, MISSING_ID) && store.experiences == old(store.experiences)
    ensures experienceId != "" ==>
      && store.experiences == Data.WithAttendee(old(store.experiences), experienceId, MOCK_USER_ID_INTEREST)
      && (outcome.success <==> exists j :: 0 <= j < |old(store.experiences)| && old(store.experiences)[j].id == experienceId)
      && outcome.message == (if outcome.success then INTEREST_EXPRESSED else INTEREST_FAILED)
    ensures old(store.Valid()) ==> store.Valid()
  {
    if experienceId == "" {
      return InterestOutcome(false, MISSING_ID);
    }
    var success := store.AddAttendee(experienceId, MOCK_USER_ID_INTEREST);
    if success {
      outcome := InterestOutcome(true, INTEREST_EXPRESSED);
    } else {
      outcome := InterestOutcome(false, INTEREST_FAILED);
    }
  }

  /** The seed data does not satisfy the schema: record 5's time `N/A` fails the pattern. */
  lemma SeedNotValidated()
    ensures !MatchesTimePattern(Data.Seed()[4].time)
  {
  }

  /** A four-character title is rejected with exactly one error, on the title. */
  lemma ShortTitleRejected(form: RawForm, lib: Library)
    requires form.title == Some("Hike")
    requires forall f :: f != Title ==> ServerFieldOk(form, lib, f)
    ensures ValidateServer(form, lib) == Err(map[Title := [TITLE_TOO_SHORT]])
  {
    var r := ValidateServer(form, lib);
    assert !ServerFieldOk(form, lib, Title);
    assert r.Err?;
    var errors := CollectErrors(f => ServerIssues(form, lib, f));
    assert r.error == errors;
    forall f ensures f in errors <==> f == Title {
      assert f != Title ==> ServerFieldOk(form, lib, f);
    }
    assert errors.Keys == {Title};
    assert ServerIssues(form, lib, Title) == [TITLE_TOO_SHORT];
    assert errors[Title] == [TITLE_TOO_SHORT];
    assert errors == map[Title := [TITLE_TOO_SHORT]];
  }
}
