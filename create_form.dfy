/**
 * The create-experience page: the schema the browser checks before
 * submitting, the values the form starts from, and the record `onSubmit`
 * builds from a validated form. The record is only logged; nothing here
 * reaches the store.
 */
module CreateForm {
  import opened Wrappers
  import opened Types
  import opened Schema
  import Data
  import Actions

  /** The page's own copy of the creator placeholders, used for the simulated record. */
  const MOCK_USER_ID := "mockUser123"
  const MOCK_USER_NAME := "Current User"

  const DATE_REQUIRED := "A date for the experience is required."
  const SELECT_CATEGORY := "Please select a category."

  /**
   * The form's values. Text inputs always hold a string; `date` and `category`
   * are absent until the user picks one, and `imageUrl` may be absent. A picked
   * date is written as its `toISOString()` form.
   */
  datatype FormValues = FormValues(
    title: string,
    description: string,
    date: Option<string>,
    time: string,
    location: string,
    category: Option<string>,
    imageUrl: Option<string>)

  /** `categories.includes(val)`: exact, case-sensitive membership in the six categories. */
  predicate ClientCategoryOk(value: string) {
    value in Actions.CATEGORIES
  }

  /** What each field of `experienceFormSchema` demands. */
  predicate ClientFieldOk(v: FormValues, lib: Library, f: Field) {
    match f
    case Title => 5 <= |v.title| <= 100
    case Description => 10 <= |v.description| <= 500
    case Date => v.date.Some?
    case Time => MatchesTimePattern(v.time)
    case Location => 3 <= |v.location| <= 100
    case Category => v.category.Some? && ClientCategoryOk(v.category.value)
    case ImageUrl => v.imageUrl.None? || v.imageUrl.value == "" || lib.isUrl(v.imageUrl.value)
  }

  /** The messages `experienceFormSchema` reports for one field. */
  function ClientIssues(v: FormValues, lib: Library, f: Field): (issues: seq<string>)
    ensures issues == [] <==> ClientFieldOk(v, lib, f)
  {
    match f
    case Title => LengthIssues(v.title, 5, 100, Actions.TITLE_TOO_SHORT, AT_MOST_100)
    case Description => LengthIssues(v.description, 10, 500, Actions.DESCRIPTION_TOO_SHORT, AT_MOST_500)
    case Date => if v.date.None? then [DATE_REQUIRED] else []
    case Time => if MatchesTimePattern(v.time) then [] else [Actions.INVALID_TIME]
    case Location => LengthIssues(v.location, 3, 100, Actions.LOCATION_TOO_SHORT, AT_MOST_100)
    case Category =>
      if v.category.None? then [SELECT_CATEGORY]
      else if ClientCategoryOk(v.category.value) then [] else [Actions.INVALID_CATEGORY]
    case ImageUrl =>
      if v.imageUrl.None? || v.imageUrl.value == "" || lib.isUrl(v.imageUrl.value) then []
      else [Actions.INVALID_URL]
  }

  /** The resolver's verdict: the values when every field passes, otherwise the failing fields' messages. */
  function ValidateClient(v: FormValues, lib: Library): (r: Result<FormValues, FieldErrors>)
    ensures r.Ok? <==> forall f :: ClientFieldOk(v, lib, f)
    ensures r.Err? ==> forall f :: f in r.error <==> !ClientFieldOk(v, lib, f)
    ensures r.Err? ==> forall f :: f in r.error ==> r.error[f] == ClientIssues(v, lib, f)
    ensures r.Ok? ==> r.value == v
  {
    var errors := CollectErrors(f => ClientIssues(v, lib, f));
    if errors == map[] then
      assert forall f :: ClientFieldOk(v, lib, f) by {
        forall f ensures ClientFieldOk(v, lib, f) {
          assert f !in errors;
        }
      }
      Ok(v)
    else
      var f :| f in errors;
      Err(errors)
  }

  /** The values the form starts from: a 19:00 default time, an empty image URL, no date and no category. */
  function DefaultValues(): FormValues {
    FormValues("", "", None, "19:00", "", None, Some(""))
  }

  /** The default time is a valid clock reading: seven in the evening. */
  lemma DefaultTimeValid()
    ensures MatchesTimePattern(DefaultValues().time)
    ensures Hours(DefaultValues().time) == 19 && Minutes(DefaultValues().time) == 0
  {
  }

  /**
   * Submitting the untouched form is refused on exactly the title, description,
   * date, location and category; the default time and empty image URL pass.
   */
  lemma DefaultsRejected(lib: Library)
    ensures ValidateClient(DefaultValues(), lib) == Err(map[
      Title := [Actions.TITLE_TOO_SHORT],
      Description := [Actions.DESCRIPTION_TOO_SHORT],
      Date := [DATE_REQUIRED],
      Location := [Actions.LOCATION_TOO_SHORT],
      Category := [SELECT_CATEGORY]])
  {
    var v := DefaultValues();
    var expected := map[
      Title := [Actions.TITLE_TOO_SHORT],
      Description := [Actions.DESCRIPTION_TOO_SHORT],
      Date := [DATE_REQUIRED],
      Location := [Actions.LOCATION_TOO_SHORT],
      Category := [SELECT_CATEGORY]];
    DefaultIssues(lib);
    var r := ValidateClient(v, lib);
    assert r.Err?;
    forall f ensures f in r.error <==> f in expected {
      match f
      case Title => case Description => case Date => case Location => case Category =>
      case Time => case ImageUrl =>
    }
    assert r.error.Keys == expected.Keys;
    assert r.error == expected;
  }

  /** The messages each field of the untouched form reports. */
  lemma DefaultIssues(lib: Library)
    ensures var v := DefaultValues();
      && ClientIssues(v, lib, Title) == [Actions.TITLE_TOO_SHORT]
      && ClientIssues(v, lib, Description) == [Actions.DESCRIPTION_TOO_SHORT]
      && ClientIssues(v, lib, Date) == [DATE_REQUIRED]
      && ClientIssues(v, lib, Location) == [Actions.LOCATION_TOO_SHORT]
      && ClientIssues(v, lib, Category) == [SELECT_CATEGORY]
      && ClientIssues(v, lib, Time) == [] && ClientIssues(v, lib, ImageUrl) == []
  {
    DefaultTimeValid();
  }

  /** The form's values as the server action would receive them; the page itself never submits them. */
  function ToServerForm(v: FormValues): Actions.RawForm {
    Actions.RawForm(Some(v.title), Some(v.description), v.date, Some(v.time), Some(v.location),
                    v.category, v.imageUrl)
  }

  /**
   * On the fields both schemas check the same way (the three length bounds,
   * the time pattern and the image URL) the client and the server agree on
   * the verdict and on the messages.
   */
  lemma SharedFieldsAgree(v: FormValues, lib: Library, f: Field)
    requires f in {Title, Description, Time, Location, ImageUrl}
    ensures ClientFieldOk(v, lib, f) <==> Actions.ServerFieldOk(ToServerForm(v), lib, f)
    ensures ClientIssues(v, lib, f) == Actions.ServerIssues(ToServerForm(v), lib, f)
  {
  }

  /** Every category the client accepts, the server accepts too. */
  lemma ClientCategoryImpliesServer(value: string)
    requires ClientCategoryOk(value)
    ensures Actions.ServerCategoryOk(value)
  {
    var i :| 0 <= i < |Actions.CATEGORIES| && Actions.CATEGORIES[i] == value;
    assert Actions.LowerAll(Actions.CATEGORIES)[i] == Text.ToLower(value);
  }

  /** The converse fails: a lower-case name passes the server but not the client. */
  lemma ServerCategoryLooser()
    ensures Actions.ServerCategoryOk("music") && !ClientCategoryOk("music")
  {
    Actions.LowerCategoryNamesFirst();
    Text.ToLowerIdempotent("Music");
    Actions.ServerCategoryIff("music");
    forall i | 0 <= i < |Actions.CATEGORIES|
      ensures Actions.CATEGORIES[i] != "music"
    {
      assert Actions.CATEGORIES[i][0] != 'm';
    }
  }

  /** A form the client accepts, with a date the validator reads as ISO 8601, passes the server schema. */
  lemma ClientAcceptedPassesServer(v: FormValues, lib: Library)
    requires forall f :: ClientFieldOk(v, lib, f)
    requires v.date.Some? && lib.isDatetime(v.date.value)
    ensures Actions.ValidateServer(ToServerForm(v), lib).Ok?
  {
    forall f ensures Actions.ServerFieldOk(ToServerForm(v), lib, f) {
      assert ClientFieldOk(v, lib, f);
      match f
      case Title => SharedFieldsAgree(v, lib, f);
      case Description => SharedFieldsAgree(v, lib, f);
      case Time => SharedFieldsAgree(v, lib, f);
      case Location => SharedFieldsAgree(v, lib, f);
      case ImageUrl => SharedFieldsAgree(v, lib, f);
      case Date =>
      case Category => ClientCategoryImpliesServer(v.category.value);
    }
  }

  /**
   * The record `onSubmit` builds and logs: the form's fields with the date as
   * an ISO string, the mock creator, and no attendees.
   */
  function SimulatedRecord(id: string, v: FormValues): (e: Experience)
    requires v.date.Some? && v.category.Some?
    ensures e.id == id && e.title == v.title && e.description == v.description
    ensures Some(e.date) == v.date && e.time == v.time && e.location == v.location
    ensures Some(e.category) == v.category && e.imageUrl == v.imageUrl
    ensures e.creatorId == MOCK_USER_ID && e.creatorName == MOCK_USER_NAME && e.attendees == []
  {
    Experience(id, v.title, v.description, v.date.value, v.time, v.location, v.category.value,
               v.imageUrl, MOCK_USER_ID, MOCK_USER_NAME, [])
  }

  /** The simulated record is the record the store would build from the same fields. */
  lemma SimulatedRecordIsNewRecord(id: string, v: FormValues)
    requires v.date.Some? && v.category.Some?
    ensures SimulatedRecord(id, v) == Data.NewRecord(id,
      ExperienceData(v.title, v.description, v.date.value, v.time, v.location, v.category.value, v.imageUrl))
  {
  }

  /**
   * The two records part ways on an empty image URL: the simulated record keeps
   * `""`, while the server action stores no image URL.
   */
  lemma EmptyImageUrlDiverges(id: string, v: FormValues, lib: Library)
    requires v.imageUrl == Some("") && v.category.Some?
    requires forall f :: ClientFieldOk(v, lib, f)
    requires v.date.Some? && lib.isDatetime(v.date.value) && lib.toIsoString(v.date.value).Some?
    ensures SimulatedRecord(id, v).imageUrl == Some("")
    ensures Actions.PrepareExperience(ToServerForm(v), lib).Ok?
    ensures Actions.PrepareExperience(ToServerForm(v), lib).value.imageUrl == None
  {
    ClientAcceptedPassesServer(v, lib);
  }
}
