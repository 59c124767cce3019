# ExperienceBuddy core, modelled in Dafny

ExperienceBuddy lists "experiences": activities a user posts so that others can
express interest and join. This project models the core of the application:

- the in-memory store of experiences (`src/lib/data.ts`). It holds a list, newest
  first. Reads return the whole list or the first record with a given id. Writes
  add a record at the head, or append a user to one record's attendees. In
  `data.dfy` the store is the class `Data.ExperienceStore`, whose methods are
  proved against the functions `IndexOf`, `NewRecord` and `WithAttendee`.
- the server actions (`src/app/actions.ts`). The server schema validates a
  submitted form. The create action then either returns a failure or adds one
  record and redirects. The express-interest action records the fixed mock user
  as an attendee. These live in `actions.dfy`, with the validation vocabulary
  shared with the client schema in `schema.dfy`.
- the listing page (`src/app/experiences/page.tsx`). Its keyword, category and
  location filters are applied in sequence to a snapshot of the store, and the
  search handler turns the form fields into query parameters. These live in
  `listing.dfy`.
- the create page (`src/app/experiences/create/page.tsx`). It has the browser's
  schema, the form's default values, and the record `onSubmit` builds and only
  logs. These live in `create_form.dfy`.

`types.dfy` holds the `Experience` record of `src/lib/types.ts`. `text.dfy`
holds ASCII lower-casing and substring search. `wrappers.dfy` holds `Option`
and `Result`.

Checks that belong to libraries are passed in as the function-valued fields of
`Schema.Library`:

- the validator's `datetime()` and `url()`;
- `new Date(s).toISOString()`, which yields `None` on an invalid date.

Ids produced from the clock are parameters (`newId`, `id`).

## Model

| member | source | states |
|---|---|---|
| Data.IndexOf | src/lib/data.ts:145 | `findIndex`: the position of the first record with the id, with every earlier record having another id; -1 exactly when no record has it |
| Data.NewRecord | src/lib/data.ts:120-126 | the new record carries the given id and exactly the supplied fields, creator `mockUser123` / `Current User`, and no attendees |
| Data.Seed | src/lib/data.ts:10-76 | definition: the five records the store starts with, field for field, descriptions held in constants |
| Data.WithAttendee | src/lib/data.ts:145-168 | definition: the store after `_addAttendeeInternal`; unchanged when the id is missing or the user is the first match's creator or an attendee, otherwise that record with the user appended |
| Data.WithAttendeeNotFound | src/lib/data.ts:145-150 | an id no record has leaves the store unchanged |
| Data.WithAttendeeAlreadyAssociated | src/lib/data.ts:152-159 | when the user is the matched record's creator or already an attendee, the store is unchanged |
| Data.WithAttendeeAppends | src/lib/data.ts:145-168 | otherwise only the first matching record changes, by the user appended to its attendees; its other fields, every other record and the length stay |
| Data.IndexOfIgnoresAttendees | src/lib/data.ts:145 | the search depends only on ids, so changing attendee lists never moves the first match |
| Data.WithAttendeePreservesWellFormed | src/lib/data.ts:155-168 | if every record listed no attendee twice and not its creator, that still holds after the call |
| Data.WithAttendeeIdempotent | src/lib/data.ts:155-168 | applying the same (id, user) twice gives the store that applying it once gives |
| Data.WithAttendeeBothUsers | src/lib/data.ts:155-168 | two different new users added one after the other end up appended in call order |
| Data.SeedWellFormed | src/lib/data.ts:10-76 | the five seed records satisfy the attendee rules, so the store starts valid |
| Data.ExperienceStore.constructor | src/lib/data.ts:10-76 | the store starts as the five seed records and is valid |
| Data.ExperienceStore.GetAllExperiences | src/lib/data.ts:82-88 | returns the whole store in store order |
| Data.ExperienceStore.FindIndex | src/lib/data.ts:145 | the linear search returns `IndexOf` of the store |
| Data.ExperienceStore.GetExperienceById | src/lib/data.ts:94-99 | `None` exactly when no record has the id, otherwise the first record that has it |
| Data.ExperienceStore.AddExperience | src/lib/data.ts:113-133 | the returned record is the new record; the store becomes that record followed by every old record; validity is kept |
| Data.ExperienceStore.AddAttendee | src/lib/data.ts:142-172 | returns false exactly when no record has the id; the store becomes `WithAttendee` of the old store; validity is kept |
| Text.ToLower | src/app/experiences/page.tsx:30-38 | `toLowerCase` keeps the length and lower-cases each character |
| Text.LowerChar | src/app/experiences/page.tsx:30-38 | definition: one character of `toLowerCase`, `A`..`Z` to `a`..`z`, every other character unchanged |
| Text.ToLowerIdempotent | src/app/experiences/page.tsx:30-38 | lower-casing twice is lower-casing once |
| Text.Contains | src/app/experiences/page.tsx:29-38 | definition: `includes`, the needle is a prefix of the haystack or of one of its suffixes |
| Text.ContainsIff | src/app/experiences/page.tsx:29-38 | `includes` holds exactly when the needle occurs at some position of the haystack |
| Text.DigitChar | src/app/actions.ts:23 | a digit character reads back as the digit it was made from |
| Schema.CollectErrors | src/app/actions.ts:40-48 | the flattened field errors name exactly the fields with at least one message, each with its messages |
| Schema.LengthIssues | src/app/actions.ts:19-24 | a string passes `min(..).max(..)` exactly when its length is within the bounds; otherwise the too-short or too-long message |
| Schema.MatchesTimePattern | src/app/actions.ts:23 | definition: the `HH:MM` regular expression read branch by branch (hour `0x`, `1x` or `20`..`23`, a colon, minute `00`..`59`), the same pattern as src/app/experiences/create/page.tsx line 35 |
| Schema.ClockStringMatches | src/app/actions.ts:23 | every time `00:00`..`23:59` matches the pattern and reads back as its hours and minutes |
| Schema.MatchingTimeIsClockString | src/app/actions.ts:23 | every string the pattern accepts is such a time: the pattern accepts exactly two hour digits 00-23, a colon, two minute digits 00-59 |
| Actions.LowerCategoryNamesFirst | src/app/actions.ts:14-25 | `Music`, `Sports` and `Travel` lower-case to `music`, `sports` and `travel` |
| Actions.LowerCategoryNamesLast | src/app/actions.ts:14-25 | `Food`, `Arts` and `Other` lower-case to `food`, `arts` and `other` |
| Actions.LowerAll | src/app/actions.ts:25 | definition: `categories.map(c => c.toLowerCase())`, element by element |
| Actions.ServerCategoryOk | src/app/actions.ts:25 | definition: the refine, the lower-cased value is in the lower-cased category list |
| Actions.LowerCategories | src/app/actions.ts:14-25 | the lower-cased category list is `music`, `sports`, `travel`, `food`, `arts`, `other`, in that order |
| Actions.ServerCategoryIff | src/app/actions.ts:14-25 | a category passes exactly when its lower-case form is one of the six lower-case names |
| Actions.ServerFieldOk | src/app/actions.ts:18-27 | definition: the rule each server field must meet: present, the length bounds, an ISO date, the time pattern, the category list, and a URL or empty or absent image URL |
| Actions.ServerIssues | src/app/actions.ts:18-27 | each field reports no message exactly when it meets its rule: present, length bounds, ISO date, time pattern, category list, URL or empty or absent |
| Actions.ValidateServer | src/app/actions.ts:18-40 | the parse succeeds exactly when every field passes; on failure the errors name exactly the failing fields, each with its own messages; on success the fields are copied |
| Actions.PrepareExperience | src/app/actions.ts:40-80 | a parse failure gives the invalid-data failure with the field errors; an unparseable date gives the date failure; otherwise the record fields are the submitted ones, with the ISO date, the category as given and an empty image URL dropped |
| Actions.PreparedFieldsValid | src/app/actions.ts:53-84 | whatever reaches the store has a valid time, an accepted category and, if present, a non-empty valid URL |
| Actions.CreateExperienceAction | src/app/actions.ts:34-106 | a rejected form returns its failure and leaves the store unchanged; an accepted one adds exactly the prepared record at the head and redirects to `/experiences` |
| Actions.ExpressInterestAction | src/app/actions.ts:114-142 | an empty id fails without touching the store; otherwise the store becomes `WithAttendee` for `mockUserInterest456` and the action succeeds exactly when a record has the id, with the matching message |
| Actions.SeedNotValidated | src/lib/data.ts:68 | the fifth seed record's time `N/A` does not match the schema's time pattern |
| Actions.ShortTitleRejected | src/app/actions.ts:18-49 | a four-character title with every other field valid fails with exactly one error, the title's minimum-length message |
| Listing.Filter | src/app/experiences/page.tsx:29-38 | `filter` keeps exactly the elements that pass and never grows the list |
| Listing.FilterIsSubsequence | src/app/experiences/page.tsx:26-39 | a filtered list is a subsequence of its input |
| Listing.FilterFuse | src/app/experiences/page.tsx:26-39 | two filters in a row equal one filter by both tests |
| Listing.FilterAppend | src/app/experiences/page.tsx:26-39 | filtering distributes over concatenation |
| Listing.FilterAgree | src/app/experiences/page.tsx:26-39 | filters by tests that agree on every element give the same list |
| Listing.FilterKeepsAll | src/app/experiences/page.tsx:26-39 | a filter every element passes changes nothing |
| Listing.MatchesQuery | src/app/experiences/page.tsx:29-32 | definition: the lower-cased query occurs in the lower-cased title or the lower-cased description |
| Listing.MatchesCategory | src/app/experiences/page.tsx:35 | definition: the lower-cased category equals the lower-cased filter |
| Listing.MatchesLocation | src/app/experiences/page.tsx:38 | definition: the lower-cased filter occurs in the lower-cased location |
| Listing.CategoryActive | src/app/experiences/page.tsx:34 | definition: the category filter applies when the parameter is present, non-empty and not exactly `all` |
| Listing.Keep | src/app/experiences/page.tsx:28-38 | definition: an experience passes every active test among keyword, category and location |
| Listing.FilterExperiences | src/app/experiences/page.tsx:26-39 | an experience is shown exactly when it is in the store and passes every active test; with no active filter the whole list is shown |
| Listing.QueryStage | src/app/experiences/page.tsx:28-33 | the keyword stage filters by the keyword test when a query is given and passes everything otherwise |
| Listing.CategoryStage | src/app/experiences/page.tsx:34-36 | the category stage filters by lower-case equality unless the category is absent, empty or `all` |
| Listing.LocationStage | src/app/experiences/page.tsx:37-39 | the location stage filters by lower-case substring when a location is given |
| Listing.FilterExperiencesIsOnePass | src/app/experiences/page.tsx:26-39 | the three passes equal one pass by the conjunction of the active tests, so store order and repeats are kept |
| Listing.FilterExperiencesOrdered | src/app/experiences/page.tsx:26-39 | the shown list is an order-preserving subsequence of the store snapshot |
| Listing.AllIsCaseSensitive | src/app/experiences/page.tsx:34 | only the exact string `all` switches the category filter off; `All` does not |
| Listing.OrDefault | src/app/experiences/page.tsx:45-47 | definition: the field read with a fallback, the field when present and non-empty, else the fallback |
| Listing.Get | src/app/experiences/page.tsx:49-52 | definition: `params.get(key)` on the built parameters, the first value stored under the key |
| Listing.GetAppend | src/app/experiences/page.tsx:49-52 | after adding a parameter, earlier keys read as before and the new key reads its value |
| Listing.HandleSearch | src/app/experiences/page.tsx:43-56 | `query` and `location` are set exactly when non-empty; `category`, defaulting to `all`, exactly when it is not `all`; no other key and no empty value is set |
| Listing.SearchRoundTrip | src/app/experiences/page.tsx:28-52 | filtering by the parameters the search handler sets shows what filtering by the typed fields shows |
| CreateForm.ClientIssues | src/app/experiences/create/page.tsx:31-39 | each field reports no message exactly when it meets the client rule: length bounds, a picked date, the time pattern, an exact-case category, URL or empty or absent |
| CreateForm.ClientCategoryOk | src/app/experiences/create/page.tsx:28-37 | definition: `categories.includes(val)`, exact-case membership in the six categories |
| CreateForm.ClientFieldOk | src/app/experiences/create/page.tsx:31-39 | definition: the rule each client field must meet: the length bounds, a picked date, the time pattern, an exact-case category, and a URL or empty or absent image URL |
| CreateForm.ValidateClient | src/app/experiences/create/page.tsx:31-51 | the form is accepted exactly when every field passes; otherwise the errors name exactly the failing fields with their messages |
| CreateForm.DefaultValues | src/app/experiences/create/page.tsx:52-60 | definition: empty title, description and location, time `19:00`, empty image URL, no date and no category |
| CreateForm.DefaultTimeValid | src/app/experiences/create/page.tsx:35-55 | the default time `19:00` matches the pattern and reads as 19 hours, 0 minutes |
| CreateForm.DefaultIssues | src/app/experiences/create/page.tsx:31-60 | each field of the untouched form reports its message: too-short title, description and location, missing date and category; time and image URL report none |
| CreateForm.DefaultsRejected | src/app/experiences/create/page.tsx:31-60 | submitting the untouched form fails on exactly title, description, date, location and category, each with its message |
| CreateForm.SharedFieldsAgree | src/app/experiences/create/page.tsx:32-38 | on title, description, time, location and image URL the client and the server give the same verdict and the same messages |
| CreateForm.ClientCategoryImpliesServer | src/app/experiences/create/page.tsx:28-37 | every category the client accepts, the server accepts |
| CreateForm.ServerCategoryLooser | src/app/actions.ts:25 | `music` passes the server but not the client, so the client accepts a strict subset |
| CreateForm.ClientAcceptedPassesServer | src/app/experiences/create/page.tsx:31-39 | a form the client accepts, whose date the server reads as ISO 8601, passes the server schema |
| CreateForm.SimulatedRecord | src/app/experiences/create/page.tsx:72-79 | the logged record copies the form's fields with the ISO date, has creator `mockUser123` / `Current User`, and no attendees |
| CreateForm.SimulatedRecordIsNewRecord | src/app/experiences/create/page.tsx:72-79 | the logged record is the record the store would build from the same fields |
| CreateForm.EmptyImageUrlDiverges | src/app/experiences/create/page.tsx:74 | an empty image URL stays `""` in the logged record but is absent in the record the server action prepares |

## Left out

- Simulated latency and logging (`setTimeout`, `console.log`/`console.error`). They have no effect on state or results.
- Ids from `Date.now().toString()` come from the clock. They are parameters here. Uniqueness is not claimed, because the source does not guarantee it.
- Zod's `datetime()` and `url()`, and `new Date(...)` with `toISOString()`/`isNaN`, are library internals. They are the function-valued fields of `Schema.Library`.
- The create action's `catch` branch (a server-error failure) is left out. No modelled step throws once the date has parsed, so the model has no path to it.
- The express-interest action's `catch` branch (failure with "An error occurred while expressing interest.") is left out. The store's attendee update cannot throw in the model, so there is no path to it.
- `revalidatePath` and `redirect` are framework calls. `redirect` is the `Redirect` outcome; cache revalidation is not modelled.
- `URLSearchParams` percent-encoding, `FormData` handling, `useRouter`, `toast` and the rendered JSX are framework or UI concerns.
- Listing.HandleSearch: `params.set` is modelled as an append. This is the same thing here, because each key is set at most once on fresh parameters.
- Search parameters given as `string[]` (a repeated key in the URL) are left out; each parameter is a single optional string.
- Concurrency: requests interleave on the event loop without locking. Each store operation is modelled as one atomic step.
- `toLowerCase` is ASCII lower-casing. Unicode case mapping is left out.
- String lengths are counted in Dafny characters, not UTF-16 code units. The two agree for text without surrogate pairs.
- The store hands out shallow copies (`[...store]`, `{ ...experience }`). The model works on values, so aliasing between returned and stored records is not represented.
- CreateForm.FormValues: a picked `Date` is represented by its `toISOString()` string. The conversion in `onSubmit` is therefore not modelled separately.
- The calendar's disabling of past dates is a UI restriction and is not part of the schema.
- The client resolver shows the first message per field. Each field here produces at most one message, so the full message lists are used.
- `src/app/page.tsx`, `ExperienceCard`, `Header`, layout, loading and not-found pages, the mobile hook, and the `src/services/geo.ts` stub are UI or stub code with no modelled behaviour.
- The seed data is not claimed to satisfy the schema: `Actions.SeedNotValidated` shows record 5 does not.
