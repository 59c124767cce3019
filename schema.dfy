/**
 * The validation vocabulary both schemas are written in: the form fields,
 * the per-field error map a failed parse reports, the string length checks,
 * the `HH:MM` pattern, and the checks delegated to libraries.
 */
module Schema {
  import opened Wrappers
  import opened Text

  /** The fields of the experience form. */
  datatype Field = Title | Description | Date | Time | Location | Category | ImageUrl

  const ALL_FIELDS: set<Field> := {Title, Description, Date, Time, Location, Category, ImageUrl}

  lemma EveryFieldListed()
    ensures forall f: Field :: f in ALL_FIELDS
  {
    forall f: Field ensures f in ALL_FIELDS {
      match f
      case Title => case Description => case Date => case Time =>
      case Location => case Category => case ImageUrl =>
    }
  }

  /** The flattened field errors of a failed parse: each failing field with its messages. */
  type FieldErrors = map<Field, seq<string>>

  /** Checks whose implementation belongs to libraries: the validator's `datetime()` and `url()`, and the date parser. */
  datatype Library = Library(
    isDatetime: string -> bool,           // `z.string().datetime()`
    isUrl: string -> bool,                // `z.string().url()`
    toIsoString: string -> Option<string>) // `new Date(s).toISOString()`, `None` when the date is invalid

  /** The validator's messages for a missing value and for a string over its maximum length. */
  const REQUIRED := "Required"
  const AT_MOST_100 := "String must contain at most 100 character(s)"
  const AT_MOST_500 := "String must contain at most 500 character(s)"

  /** The error map built from each field's list of messages: exactly the fields with at least one message. */
  function CollectErrors(issues: Field -> seq<string>): (errors: FieldErrors)
    ensures forall f :: f in errors <==> issues(f) != []
    ensures forall f :: f in errors ==> errors[f] == issues(f)
  {
    EveryFieldListed();
    map f | f in ALL_FIELDS && issues(f) != [] :: issues(f)
  }

  /** `z.string().min(min, tooShort).max(max)` on a present string: the messages of the checks it fails. */
  function LengthIssues(s: string, min: nat, max: nat, tooShort: string, tooLong: string): (issues: seq<string>)
    requires min <= max
    ensures issues == [] <==> min <= |s| <= max
    ensures |s| < min ==> issues == [tooShort]
    ensures |s| > max ==> issues == [tooLong]
  {
    (if |s| < min then [tooShort] else []) + (if |s| > max then [tooLong] else [])
  }

  /**
   * The regular expression `^([01]\d|2[0-3]):([0-5]\d)$`, read branch by branch:
   * an hour `0x`, `1x` or `20`..`23`, a colon, a minute `00`..`59`, nothing else.
   */
  predicate MatchesTimePattern(t: string) {
    && |t| == 5
    && (((t[0] == '0' || t[0] == '1') && IsDigit(t[1])) || (t[0] == '2' && '0' <= t[1] <= '3'))
    && t[2] == ':'
    && '0' <= t[3] <= '5' && IsDigit(t[4])
  }

  /** The zero-padded 24-hour clock reading `HH:MM`. */
  function ClockString(hours: nat, minutes: nat): string
    requires hours < 24 && minutes < 60
  {
    [DigitChar(hours / 10), DigitChar(hours % 10), ':', DigitChar(minutes / 10), DigitChar(minutes % 10)]
  }

  function Hours(t: string): nat
    requires MatchesTimePattern(t)
  {
    DigitValue(t[0]) * 10 + DigitValue(t[1])
  }

  function Minutes(t: string): nat
    requires MatchesTimePattern(t)
  {
    DigitValue(t[3]) * 10 + DigitValue(t[4])
  }

  /** Every clock reading matches the pattern, and reading it back gives the same hours and minutes. */
  lemma ClockStringMatches(hours: nat, minutes: nat)
    requires hours < 24 && minutes < 60
    ensures MatchesTimePattern(ClockString(hours, minutes))
    ensures Hours(ClockString(hours, minutes)) == hours
    ensures Minutes(ClockString(hours, minutes)) == minutes
  {
  }

  /** Every string the pattern accepts is a clock reading: the pattern accepts exactly `00:00` .. `23:59`. */
  lemma MatchingTimeIsClockString(t: string)
    requires MatchesTimePattern(t)
    ensures Hours(t) < 24 && Minutes(t) < 60
    ensures t == ClockString(Hours(t), Minutes(t))
  {
  }
}
