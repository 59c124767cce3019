/**
 * The experiences listing: the keyword, category and location filters applied
 * to a snapshot of the store, and the search form handler that turns the
 * submitted fields into query parameters.
 */
module Listing {
  import opened Wrappers
  import opened Text
  import opened Types

  /** The listing's query parameters; `None` is a parameter absent from the URL. */
  datatype SearchParams = SearchParams(query: Option<string>, category: Option<string>, location: Option<string>)

  /** JavaScript truthiness of an optional string: present and not empty. */
  predicate Truthy(v: Option<string>) {
    v.Some? && v.value != ""
  }

  /** `Array.prototype.filter`: the elements that pass, in their original order. */
  function Filter<T(!new)>(s: seq<T>, keep: T -> bool): (r: seq<T>)
    ensures |r| <= |s|
    ensures forall x :: x in r <==> x in s && keep(x)
  {
    if s == [] then [] else (if keep(s[0]) then [s[0]] else []) + Filter(s[1..], keep)
  }

  /** `r` is `s` with some elements removed and the rest in order. */
  predicate IsSubsequence<T(==)>(r: seq<T>, s: seq<T>)
    decreases |s|
  {
    r == [] || (s != [] && ((r[0] == s[0] && IsSubsequence(r[1..], s[1..])) || IsSubsequence(r, s[1..])))
  }

  /** Filtering keeps order: the result is a subsequence of the input. */
  lemma {:induction false} FilterIsSubsequence<T(!new)>(s: seq<T>, keep: T -> bool)
    ensures IsSubsequence(Filter(s, keep), s)
  {
    if s != [] {
      FilterIsSubsequence(s[1..], keep);
      var rest := Filter(s[1..], keep);
      assert Filter(s, keep) == (if keep(s[0]) then [s[0]] else []) + rest;
      var r := Filter(s, keep);
      if keep(s[0]) {
        assert r[0] == s[0] && r[1..] == rest;
      } else {
        assert r == rest;
      }
    }
  }

  /** Two filters in a row are one filter by both tests. */
  lemma {:induction false} FilterFuse<T(!new)>(s: seq<T>, p: T -> bool, q: T -> bool, both: T -> bool)
    requires forall x :: both(x) == (p(x) && q(x))
    ensures Filter(Filter(s, p), q) == Filter(s, both)
  {
    if s != [] {
      FilterFuse(s[1..], p, q, both);
      assert [s[0]][1..] == [];
      if p(s[0]) {
        assert Filter(s, p) == [s[0]] + Filter(s[1..], p);
        FilterAppend([s[0]], Filter(s[1..], p), q);
      } else {
        assert Filter(s, p) == Filter(s[1..], p);
      }
    }
  }

  lemma {:induction false} FilterAppend<T(!new)>(a: seq<T>, b: seq<T>, keep: T -> bool)
    ensures Filter(a + b, keep) == Filter(a, keep) + Filter(b, keep)
  {
    if a == [] {
      assert a + b == b;
    } else {
      var head := if keep(a[0]) then [a[0]] else [];
      assert (a + b)[0] == a[0] && (a + b)[1..] == a[1..] + b;
      assert Filter(a + b, keep) == head + Filter(a[1..] + b, keep);
      FilterAppend(a[1..], b, keep);
      assert Filter(a, keep) == head + Filter(a[1..], keep);
      assert head + (Filter(a[1..], keep) + Filter(b, keep)) == (head + Filter(a[1..], keep)) + Filter(b, keep);
    }
  }

  /** Filters by tests that agree on every element give the same result. */
  lemma {:induction false} FilterAgree<T(!new)>(s: seq<T>, p: T -> bool, q: T -> bool)
    requires forall x :: x in s ==> p(x) == q(x)
    ensures Filter(s, p) == Filter(s, q)
  {
    if s != [] {
      FilterAgree(s[1..], p, q);
    }
  }

  /** A filter every element passes changes nothing. */
  lemma {:induction false} FilterKeepsAll<T(!new)>(s: seq<T>, keep: T -> bool)
    requires forall x :: x in s ==> keep(x)
    ensures Filter(s, keep) == s
  {
    if s != [] {
      FilterKeepsAll(s[1..], keep);
    }
  }

  /** The keyword test: the lower-cased query occurs in the lower-cased title or description. */
  predicate MatchesQuery(e: Experience, query: string) {
    Contains(ToLower(e.title), ToLower(query)) || Contains(ToLower(e.description), ToLower(query))
  }

  /** The category test: equal after lower-casing both sides. */
  predicate MatchesCategory(e: Experience, category: string) {
    ToLower(e.category) == ToLower(category)
  }

  /** The location test: the lower-cased filter occurs in the lower-cased location. */
  predicate MatchesLocation(e: Experience, location: string) {
    Contains(ToLower(e.location), ToLower(location))
  }

  /** The category filter is active unless the parameter is missing, empty, or exactly `all`. */
  predicate CategoryActive(p: SearchParams) {
    Truthy(p.category) && p.category.value != "all"
  }

  /** An experience the listing shows for `p`: it passes every active test. */
  predicate Keep(p: SearchParams, e: Experience) {
    && (Truthy(p.query) ==> MatchesQuery(e, p.query.value))
    && (CategoryActive(p) ==> MatchesCategory(e, p.category.value))
    && (Truthy(p.location) ==> MatchesLocation(e, p.location.value))
  }

  /** The tests as the predicates handed to `filter`. */
  function QueryTest(query: string): Experience -> bool {
    e => MatchesQuery(e, query)
  }

  function CategoryTest(category: string): Experience -> bool {
    e => MatchesCategory(e, category)
  }

  function LocationTest(location: string): Experience -> bool {
    e => MatchesLocation(e, location)
  }

  function KeepTest(p: SearchParams): Experience -> bool {
    e => Keep(p, e)
  }

  /** The filter chain of `ExperiencesPage`: keyword, then category, then location. */
  function FilterExperiences(all: seq<Experience>, p: SearchParams): (r: seq<Experience>)
    ensures forall e :: e in r <==> e in all && Keep(p, e)
    ensures !Truthy(p.query) && !CategoryActive(p) && !Truthy(p.location) ==> r == all
  {
    var afterQuery :=
      if Truthy(p.query) then Filter(all, QueryTest(p.query.value)) else all;
    var afterCategory :=
      if CategoryActive(p) then Filter(afterQuery, CategoryTest(p.category.value)) else afterQuery;
    if Truthy(p.location) then Filter(afterCategory, LocationTest(p.location.value)) else afterCategory
  }

  /** Each stage as a test on every experience: an inactive stage passes everything. */
  function GuardedQuery(p: SearchParams): Experience -> bool {
    e => Truthy(p.query) ==> MatchesQuery(e, p.query.value)
  }

  function GuardedCategory(p: SearchParams): Experience -> bool {
    e => CategoryActive(p) ==> MatchesCategory(e, p.category.value)
  }

  function GuardedLocation(p: SearchParams): Experience -> bool {
    e => Truthy(p.location) ==> MatchesLocation(e, p.location.value)
  }

  function GuardedQueryAndCategory(p: SearchParams): Experience -> bool {
    e => GuardedQuery(p)(e) && GuardedCategory(p)(e)
  }

  /** The keyword stage of `FilterExperiences` is a filter by its guarded test. */
  lemma QueryStage(all: seq<Experience>, p: SearchParams)
    ensures (if Truthy(p.query) then Filter(all, QueryTest(p.query.value)) else all)
         == Filter(all, GuardedQuery(p))
  {
    if Truthy(p.query) {
      FilterAgree(all, QueryTest(p.query.value), GuardedQuery(p));
    } else {
      FilterKeepsAll(all, GuardedQuery(p));
    }
  }

  lemma CategoryStage(s: seq<Experience>, p: SearchParams)
    ensures (if CategoryActive(p) then Filter(s, CategoryTest(p.category.value)) else s)
         == Filter(s, GuardedCategory(p))
  {
    if CategoryActive(p) {
      FilterAgree(s, CategoryTest(p.category.value), GuardedCategory(p));
    } else {
      FilterKeepsAll(s, GuardedCategory(p));
    }
  }

  lemma LocationStage(s: seq<Experience>, p: SearchParams)
    ensures (if Truthy(p.location) then Filter(s, LocationTest(p.location.value)) else s)
         == Filter(s, GuardedLocation(p))
  {
    if Truthy(p.location) {
      FilterAgree(s, LocationTest(p.location.value), GuardedLocation(p));
    } else {
      FilterKeepsAll(s, GuardedLocation(p));
    }
  }

  /** The three passes are one pass: exactly the experiences `Keep` admits, in store order, with repeats kept. */
  lemma FilterExperiencesIsOnePass(all: seq<Experience>, p: SearchParams)
    ensures FilterExperiences(all, p) == Filter(all, KeepTest(p))
  {
    var afterQuery := Filter(all, GuardedQuery(p));
    var afterCategory := Filter(afterQuery, GuardedCategory(p));
    QueryStage(all, p);
    CategoryStage(afterQuery, p);
    LocationStage(afterCategory, p);
    assert FilterExperiences(all, p) == Filter(afterCategory, GuardedLocation(p));
    assert forall x :: GuardedQueryAndCategory(p)(x) == (GuardedQuery(p)(x) && GuardedCategory(p)(x));
    FilterFuse(all, GuardedQuery(p), GuardedCategory(p), GuardedQueryAndCategory(p));
    assert forall x :: KeepTest(p)(x) == (GuardedQueryAndCategory(p)(x) && GuardedLocation(p)(x));
    FilterFuse(all, GuardedQueryAndCategory(p), GuardedLocation(p), KeepTest(p));
  }

  /** The filtered list is an order-preserving subsequence of the store snapshot. */
  lemma FilterExperiencesOrdered(all: seq<Experience>, p: SearchParams)
    ensures IsSubsequence(FilterExperiences(all, p), all)
  {
    FilterExperiencesIsOnePass(all, p);
    FilterIsSubsequence(all, KeepTest(p));
  }

  /** Only the exact string `all` switches the category filter off; `All` filters for a category named so. */
  lemma AllIsCaseSensitive(query: Option<string>, location: Option<string>)
    ensures !CategoryActive(SearchParams(query, Some("all"), location))
    ensures CategoryActive(SearchParams(query, Some("All"), location))
  {
    assert "All"[0] != "all"[0];
  }

  /** `formData.get(name) as string || fallback`. */
  function OrDefault(field: Option<string>, fallback: string): string {
    if Truthy(field) then field.value else fallback
  }

  /** `params.get(key)` on a list of parameters: the first value under `key`. */
  function Get(params: seq<(string, string)>, key: string): Option<string> {
    if params == [] then None
    else if params[0].0 == key then Some(params[0].1)
    else Get(params[1..], key)
  }

  /** Appending a parameter: earlier values under a key win; a new key reads back its value. */
  lemma {:induction false} GetAppend(params: seq<(string, string)>, key: string, value: string)
    ensures forall k :: (Get(params + [(key, value)], k) ==
      if Get(params, k).Some? then Get(params, k) else if k == key then Some(value) else None)
  {
    if params != [] {
      GetAppend(params[1..], key, value);
      assert (params + [(key, value)])[1..] == params[1..] + [(key, value)];
    }
  }

  /**
   * `handleSearch`: `query` and `location` are set only when non-empty;
   * `category`, defaulting to `all`, is set only when it is not `all`.
   */
  method HandleSearch(queryField: Option<string>, categoryField: Option<string>, locationField: Option<string>)
    returns (params: seq<(string, string)>)
    ensures Get(params, "query") == (if Truthy(queryField) then queryField else None)
    ensures Get(params, "category") ==
      (if Truthy(categoryField) && categoryField.value != "all" then categoryField else None)
    ensures Get(params, "location") == (if Truthy(locationField) then locationField else None)
    ensures forall i :: 0 <= i < |params| ==>
      params[i].1 != "" && (params[i].0 == "query" || params[i].0 == "category" || params[i].0 == "location")
  {
    assert "query"[0] != "category"[0] && "query"[0] != "location"[0] && "category"[0] != "location"[0];
    var query := OrDefault(queryField, "");
    var category := OrDefault(categoryField, "all");
    var location := OrDefault(locationField, "");
    // `set` on fresh parameters, each key once: every call appends
    params := [];
    if query != "" {
      GetAppend(params, "query", query);
      params := params + [("query", query)];
    }
    if category != "" && category != "all" {
      GetAppend(params, "category", category);
      params := params + [("category", category)];
    }
    if location != "" {
      GetAppend(params, "location", location);
      params := params + [("location", location)];
    }
  }

  /** The listing's parameters as read back from a redirect carrying `params`. */
  function ReadParams(params: seq<(string, string)>): SearchParams {
    SearchParams(Get(params, "query"), Get(params, "category"), Get(params, "location"))
  }

  /**
   * Searching through the form shows what filtering directly by the typed fields
   * shows: dropping empty fields and `all` changes no filter.
   */
  lemma SearchRoundTrip(all: seq<Experience>, params: seq<(string, string)>,
                        queryField: Option<string>, categoryField: Option<string>, locationField: Option<string>)
    requires Get(params, "query") == (if Truthy(queryField) then queryField else None)
    requires Get(params, "category") ==
      (if Truthy(categoryField) && categoryField.value != "all" then categoryField else None)
    requires Get(params, "location") == (if Truthy(locationField) then locationField else None)
    ensures FilterExperiences(all, ReadParams(params))
         == FilterExperiences(all, SearchParams(queryField, categoryField, locationField))
  {
    var p := ReadParams(params);
    var typed := SearchParams(queryField, categoryField, locationField);
    FilterExperiencesIsOnePass(all, p);
    FilterExperiencesIsOnePass(all, typed);
    FilterAgree(all, KeepTest(p), KeepTest(typed));
  }
}
