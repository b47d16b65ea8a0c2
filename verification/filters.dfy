/** Validation of the user's `filter` query values against the taxonomy,
    and expansion of the chosen content types into the search API's
    sub-types. The inner functions take the lookup table as a parameter
    `options`; the entry points `ReviewFilters` and
    `UpdateQueryWithAPIFilters` pass the taxonomy's `FilterOptions`. */
module Filters {
  import opened AppErrors
  import opened Taxonomy
  import opened UrlValues

  /** The filters a user selected: the accepted content-type names and, at
      the same positions, their localisation keys. */
  datatype Filter = Filter(query: seq<string>, localiseKeyName: seq<string>)

  /** What validation leaves behind: the filter as updated so far (appends
      made before an error stay in place) and whether it succeeded. */
  datatype Reviewed = Reviewed(filter: Filter, outcome: Outcome)

  /** Every value is a key of `options`. */
  predicate AllKnown(options: map<string, ContentType>, values: seq<string>)
  {
    forall i :: 0 <= i < |values| ==> values[i] in options
  }

  /** The index of the first value that is not a key of `options`, or the
      length of `values` when every value is one. */
  function FirstUnknown(options: map<string, ContentType>, values: seq<string>): (k: nat)
    ensures k <= |values|
    ensures forall i :: 0 <= i < k ==> values[i] in options
    ensures k < |values| ==> values[k] !in options
    decreases |values|
  {
    if |values| == 0 || values[0] !in options then 0
    else 1 + FirstUnknown(options, values[1..])
  }

  /** `g` is `f` with the content types of the first `n` values appended:
      their names to `query` and, at the same positions, their localisation
      keys to `localiseKeyName`. */
  predicate Extends(options: map<string, ContentType>, f: Filter, values: seq<string>, n: nat, g: Filter)
    requires n <= |values|
    requires forall i :: 0 <= i < n ==> values[i] in options
  {
    && |g.query| == |f.query| + n
    && |g.localiseKeyName| == |f.localiseKeyName| + n
    && g.query[..|f.query|] == f.query
    && g.localiseKeyName[..|f.localiseKeyName|] == f.localiseKeyName
    && (forall i :: 0 <= i < n ==> g.query[|f.query| + i] == options[values[i]].typeName)
    && (forall i :: 0 <= i < n ==>
          g.localiseKeyName[|f.localiseKeyName| + i] == options[values[i]].localiseKeyName)
  }

  /** Appends one content type to the filter: its name to `query` and its
      localisation key to `localiseKeyName`. */
  function Append(f: Filter, ct: ContentType): (r: Filter)
    ensures |r.query| == |f.query| + 1 && r.query[..|f.query|] == f.query
    ensures |r.localiseKeyName| == |f.localiseKeyName| + 1
    ensures r.localiseKeyName[..|f.localiseKeyName|] == f.localiseKeyName
    ensures r.query[|f.query|] == ct.typeName
    ensures r.localiseKeyName[|f.localiseKeyName|] == ct.localiseKeyName
  {
    Filter(f.query + [ct.typeName], f.localiseKeyName + [ct.localiseKeyName])
  }

  /** Checks the values one by one, appending each known one's content type
      to the filter, and stops with `FilterNotFound` at the first unknown
      one. The result is the filter extended by the content types of exactly
      the values before the first unknown one, and the outcome is a pass
      exactly when there is no unknown value. */
  function ReviewValues(options: map<string, ContentType>, values: seq<string>, f: Filter): (r: Reviewed)
    ensures var k := FirstUnknown(options, values);
      && r.outcome == (if k == |values| then Pass else Fail(FilterNotFound))
      && Extends(options, f, values, k, r.filter)
    decreases |values|
  {
    if |values| == 0 then Reviewed(f, Pass)
    else if values[0] in options then
      var r := ReviewValues(options, values[1..], Append(f, options[values[0]]));
      ExtendsStep(options, f, values, FirstUnknown(options, values[1..]), r.filter);
      r
    else Reviewed(f, Fail(FilterNotFound))
  }

  /** Extending `f` by a known first value and then by `n` of the remaining
      values extends `f` by `n + 1` values. */
  lemma ExtendsStep(options: map<string, ContentType>, f: Filter, values: seq<string>, n: nat, g: Filter)
    requires |values| > 0 && values[0] in options
    requires n <= |values| - 1
    requires forall i :: 0 <= i < n ==> values[1..][i] in options
    requires Extends(options, Append(f, options[values[0]]), values[1..], n, g)
    ensures Extends(options, f, values, n + 1, g)
  {
    var h := Append(f, options[values[0]]);
    assert g.query[..|f.query|] == h.query[..|f.query|];
    assert g.localiseKeyName[..|f.localiseKeyName|] == h.localiseKeyName[..|f.localiseKeyName|];
    forall i | 1 <= i < n + 1
      ensures g.query[|f.query| + i] == options[values[i]].typeName
      ensures g.localiseKeyName[|f.localiseKeyName| + i] == options[values[i]].localiseKeyName
    {
      assert values[1..][i - 1] == values[i];
      assert g.query[|h.query| + (i - 1)] == options[values[1..][i - 1]].typeName;
      assert g.localiseKeyName[|h.localiseKeyName| + (i - 1)] == options[values[1..][i - 1]].localiseKeyName;
    }
    assert g.query[|f.query|] == h.query[|f.query|];
    assert g.localiseKeyName[|f.localiseKeyName|] == h.localiseKeyName[|f.localiseKeyName|];
  }

  /** `reviewFilters`: validates the `filter` values of the request query
      and records them in the request's filter. It passes exactly when every
      value is a known content type; then `query` gains exactly those values
      in input order and `localiseKeyName` their localisation keys at the
      same positions. Either way the earlier contents of both lists are kept
      as a prefix. */
  function ReviewFilters(urlQuery: Values, f: Filter): (r: Reviewed)
    ensures var values := Get(urlQuery, "filter");
      && (r.outcome.Pass? <==> AllKnown(FilterOptions, values))
      && (r.outcome.Pass? ==>
            && r.filter.query == f.query + values
            && |r.filter.localiseKeyName| == |f.localiseKeyName| + |values|
            && forall i :: 0 <= i < |values| ==>
                 r.filter.localiseKeyName[|f.localiseKeyName| + i]
                   == FilterOptions[values[i]].localiseKeyName)
      && (r.outcome.Fail? ==> r.outcome.error == FilterNotFound)
    ensures f.query <= r.filter.query
    ensures f.localiseKeyName <= r.filter.localiseKeyName
  {
    var values := Get(urlQuery, "filter");
    var r := ReviewValues(FilterOptions, values, f);
    assert r.outcome.Pass? ==> r.filter.query == f.query + values by {
      if r.outcome.Pass? {
        FilterOptionsKeyedByType();
        ExtendedByValues(FilterOptions, f, values, |values|, r.filter);
        assert values[..|values|] == values;
      }
    }
    r
  }

  /** Under a table keyed by type name, extending by all values appends the
      values themselves to `query`. */
  lemma ExtendedByValues(options: map<string, ContentType>, f: Filter, values: seq<string>, n: nat, g: Filter)
    requires KeyedByType(options)
    requires n <= |values| && forall i :: 0 <= i < n ==> values[i] in options
    requires Extends(options, f, values, n, g)
    ensures g.query == f.query + values[..n]
  {
    forall i | 0 <= i < |g.query|
      ensures g.query[i] == (f.query + values[..n])[i]
    {
      if i >= |f.query| {
        assert g.query[|f.query| + (i - |f.query|)] == options[values[i - |f.query|]].typeName;
      } else {
        assert g.query[..|f.query|][i] == g.query[i];
      }
    }
  }

  /** Validation stops at the first unknown value: the outcome is
      `FilterNotFound` and the filter holds exactly the values before it,
      with their localisation keys. */
  lemma ReviewStopsAtFirstUnknown(urlQuery: Values, f: Filter, k: nat)
    requires k < |Get(urlQuery, "filter")|
    requires Get(urlQuery, "filter")[k] !in FilterOptions
    requires forall i :: 0 <= i < k ==> Get(urlQuery, "filter")[i] in FilterOptions
    ensures var values := Get(urlQuery, "filter");
      var r := ReviewFilters(urlQuery, f);
      && r.outcome == Fail(FilterNotFound)
      && r.filter.query == f.query + values[..k]
      && Extends(FilterOptions, f, values, k, r.filter)
  {
    var values := Get(urlQuery, "filter");
    assert FirstUnknown(FilterOptions, values) == k;
    FilterOptionsKeyedByType();
    ExtendedByValues(FilterOptions, f, values, k, ReviewFilters(urlQuery, f).filter);
  }

  /** Once a value fails validation no later value is looked at: whatever
      follows leaves the result unchanged. */
  lemma {:induction false} ReviewIgnoresLaterValues(
    options: map<string, ContentType>, values: seq<string>, rest: seq<string>, f: Filter)
    requires !AllKnown(options, values)
    ensures ReviewValues(options, values + rest, f) == ReviewValues(options, values, f)
    decreases |values|
  {
    assert (values + rest)[0] == values[0];
    if values[0] in options {
      assert (values + rest)[1..] == values[1..] + rest;
      assert !AllKnown(options, values[1..]) by {
        var i :| 0 <= i < |values| && values[i] !in options;
        assert values[1..][i - 1] == values[i];
      }
      ReviewIgnoresLaterValues(options, values[1..], rest, Append(f, options[values[0]]));
    }
  }

  /** Validating two lists of values one after the other is validating
      their concatenation, where the second list is only looked at when the
      first one passed. */
  lemma {:induction false} ReviewValuesConcat(
    options: map<string, ContentType>, a: seq<string>, b: seq<string>, f: Filter)
    ensures ReviewValues(options, a + b, f) ==
      var ra := ReviewValues(options, a, f);
      if ra.outcome.Pass? then ReviewValues(options, b, ra.filter) else ra
    decreases |a|
  {
    if |a| == 0 {
      assert a + b == b;
    } else {
      assert (a + b)[0] == a[0];
      if a[0] in options {
        assert (a + b)[1..] == a[1..] + b;
        ReviewValuesConcat(options, a[1..], b, Append(f, options[a[0]]));
      }
    }
  }

  /** `query` and `localiseKeyName` grow in lockstep: from lists of equal
      length they stay of equal length, and each new localisation key is
      the one of the content type named at the same position. */
  lemma ReviewKeepsLockstep(urlQuery: Values, f: Filter)
    requires |f.query| == |f.localiseKeyName|
    ensures var r := ReviewFilters(urlQuery, f).filter;
      && |r.query| == |r.localiseKeyName|
      && forall i :: |f.query| <= i < |r.query| ==>
           r.query[i] in FilterOptions
           && r.localiseKeyName[i] == FilterOptions[r.query[i]].localiseKeyName
  {
    var values := Get(urlQuery, "filter");
    var r := ReviewFilters(urlQuery, f).filter;
    FilterOptionsKeyedByType();
    forall i | |f.query| <= i < |r.query|
      ensures r.query[i] in FilterOptions
      ensures r.localiseKeyName[i] == FilterOptions[r.query[i]].localiseKeyName
    {
      var j := i - |f.query|;
      assert r.query[|f.query| + j] == FilterOptions[values[j]].typeName;
      assert r.localiseKeyName[|f.localiseKeyName| + j] == FilterOptions[values[j]].localiseKeyName;
    }
  }

  /** Without `filter` values validation passes and changes nothing. */
  lemma ReviewWithoutFilters(urlQuery: Values, f: Filter)
    requires Get(urlQuery, "filter") == []
    ensures ReviewFilters(urlQuery, f) == Reviewed(f, Pass)
  {
  }

  /** The API sub-types of a filter value; a value that is not a key of
      `options` has none (Go's zero `ContentType` has nil `SubTypes`). */
  function SubTypesOf(options: map<string, ContentType>, v: string): (r: seq<string>)
    ensures v in options ==> r == options[v].subTypes
    ensures v !in options ==> r == []
  {
    if v in options then options[v].subTypes else []
  }

  /** `getSubFilters`: the sub-types of the given filter values, value by
      value. A sub-type is in the result exactly when it is a sub-type of
      one of the known values; unknown values add nothing and cause no
      error. */
  function GetSubFilters(options: map<string, ContentType>, filters: seq<string>): (r: seq<string>)
    ensures filters == [] ==> r == []
    ensures forall s :: s in r <==> exists i :: 0 <= i < |filters| && s in SubTypesOf(options, filters[i])
    decreases |filters|
  {
    if |filters| == 0 then []
    else
      var rest := GetSubFilters(options, filters[1..]);
      assert forall i :: 1 <= i < |filters| ==> filters[1..][i - 1] == filters[i];
      SubTypesOf(options, filters[0]) + rest
  }

  /** A single filter value contributes exactly its own sub-types. */
  lemma GetSubFiltersOne(options: map<string, ContentType>, v: string)
    ensures GetSubFilters(options, [v]) == SubTypesOf(options, v)
  {
    assert [v][1..] == [];
  }

  /** The sub-types of a concatenation are the concatenation of the
      sub-types, so the order of the filter values is kept. */
  lemma {:induction false} GetSubFiltersConcat(
    options: map<string, ContentType>, a: seq<string>, b: seq<string>)
    ensures GetSubFilters(options, a + b) == GetSubFilters(options, a) + GetSubFilters(options, b)
    decreases |a|
  {
    if |a| == 0 {
      assert a + b == b;
    } else {
      assert (a + b)[0] == a[0];
      assert (a + b)[1..] == a[1..] + b;
      GetSubFiltersConcat(options, a[1..], b);
    }
  }

  /** An unknown filter value can be dropped without changing the
      sub-types. */
  lemma GetSubFiltersSkipsUnknown(
    options: map<string, ContentType>, a: seq<string>, v: string, b: seq<string>)
    requires v !in options
    ensures GetSubFilters(options, a + [v] + b) == GetSubFilters(options, a + b)
  {
    assert a + [v] + b == a + ([v] + b);
    assert ([v] + b)[1..] == b;
    assert GetSubFilters(options, [v] + b) == GetSubFilters(options, b);
    GetSubFiltersConcat(options, a, [v] + b);
    GetSubFiltersConcat(options, a, b);
  }

  /** When no sub-type in the table contains a comma, no sub-type produced
      for the search API does. */
  lemma GetSubFiltersCommaFree(options: map<string, ContentType>, filters: seq<string>)
    requires forall k :: k in options ==> SubTypesCommaFree(options[k])
    ensures Unseparated(GetSubFilters(options, filters), ',')
  {
    var r := GetSubFilters(options, filters);
    forall i | 0 <= i < |r|
      ensures ',' !in r[i]
    {
      assert r[i] in r;
      var j :| 0 <= j < |filters| && r[i] in SubTypesOf(options, filters[j]);
      var n :| 0 <= n < |SubTypesOf(options, filters[j])| && SubTypesOf(options, filters[j])[n] == r[i];
      assert SubTypesCommaFree(options[filters[j]]);
    }
  }

  /** The joined sub-types split back into exactly the sub-types, and are
      the empty string when there are none. */
  lemma JoinedSubFiltersSplit(filters: seq<string>)
    ensures var subFilters := GetSubFilters(FilterOptions, filters);
      && (subFilters == [] ==> Join(subFilters, ",") == "")
      && (subFilters != [] ==> Split(Join(subFilters, ","), ',') == subFilters)
  {
    var subFilters := GetSubFilters(FilterOptions, filters);
    if subFilters != [] {
      SubTypesHaveNoComma();
      GetSubFiltersCommaFree(FilterOptions, filters);
      SplitJoin(subFilters, ',');
    }
  }

  /** `updateQueryWithAPIFilters`: when the outgoing query has
      `content_type` values, they are replaced by one value, the
      comma-joined sub-types of those values, which splits back into
      exactly those sub-types (or is empty when there are none). Without
      `content_type` values the query is unchanged. No other parameter is
      touched. */
  function UpdateQueryWithAPIFilters(apiQuery: Values): (r: Values)
    ensures Get(apiQuery, "content_type") == [] ==> r == apiQuery
    ensures r.Keys == apiQuery.Keys
    ensures forall k :: k in apiQuery && k != "content_type" ==> r[k] == apiQuery[k]
    ensures var filters := Get(apiQuery, "content_type");
      var subFilters := GetSubFilters(FilterOptions, filters);
      filters != [] ==>
        && |Get(r, "content_type")| == 1
        && (subFilters == [] ==> Get(r, "content_type") == [""])
        && (subFilters != [] ==> Split(Get(r, "content_type")[0], ',') == subFilters)
  {
    var filters := Get(apiQuery, "content_type");
    if |filters| > 0 then
      JoinedSubFiltersSplit(filters);
      SetValue(apiQuery, "content_type", Join(GetSubFilters(FilterOptions, filters), ","))
    else apiQuery
  }
}
