/**
 * The public catalogue page (src/app/plants/page.tsx): which rows a page asks the
 * database for, how many pages there are, the "Showing x–y of n" label, which
 * pagination controls appear, how the query string is read, and how `updateParams`
 * merges new values into it. Query parameters are the ordered name/value list of a
 * `URLSearchParams` object, with `get`, `getAll`, `set` and `delete` as the WHATWG
 * URL Standard (section 6.2, interface URLSearchParams) defines them.
 */
module Catalogue {
  import opened Text
  import opened UrlEncoding

  const ItemsPerPage: nat := 12

  // ---------------------------------------------------------------------------
  // Pagination arithmetic

  /** The inclusive row range `range(from, to)` requested for `page`. */
  function RowRange(page: int): (r: (int, int))
    ensures r.1 - r.0 + 1 == ItemsPerPage
  {
    var from := (page - 1) * ItemsPerPage;
    (from, from + ItemsPerPage - 1)
  }

  /** Consecutive pages ask for adjacent ranges. */
  lemma RangesAdjacent(page: int)
    ensures RowRange(page + 1).0 == RowRange(page).1 + 1
  {
  }

  /** Different pages ask for disjoint ranges, and every row index belongs to exactly one page. */
  lemma RangesPartitionRows(page: int, other: int, n: nat)
    ensures page < other ==> RowRange(page).1 < RowRange(other).0
    ensures RowRange(n / ItemsPerPage + 1).0 <= n <= RowRange(n / ItemsPerPage + 1).1
    ensures RowRange(page).0 <= n <= RowRange(page).1 ==> page == n / ItemsPerPage + 1
  {
    if RowRange(page).0 <= n <= RowRange(page).1 {
      assert (page - 1) * 12 <= n < (page - 1) * 12 + 12;
      assert page - 1 == n / 12;
    }
  }

  /** `Math.ceil(total / ITEMS_PER_PAGE)`: the least number of pages that holds `total` rows. */
  function TotalPages(total: nat): (n: nat)
    ensures ItemsPerPage * n >= total
    ensures forall m: nat :: ItemsPerPage * m >= total ==> n <= m
  {
    (total + ItemsPerPage - 1) / ItemsPerPage
  }

  /** The two numbers of "Showing start–end of total". */
  function Label(page: int, total: nat): (r: (int, int))
  {
    ((page - 1) * ItemsPerPage + 1, if page * ItemsPerPage < total then page * ItemsPerPage else total)
  }

  /** On a page that exists, the label is a non-empty span of at most twelve rows inside 1..total; the last page ends at total. */
  lemma LabelWithinTotal(page: int, total: nat)
    requires 1 <= page <= TotalPages(total)
    ensures 1 <= Label(page, total).0 <= Label(page, total).1 <= total
    ensures Label(page, total).1 - Label(page, total).0 + 1 <= ItemsPerPage
    ensures page == TotalPages(total) ==> Label(page, total).1 == total
  {
  }

  /** The label describes exactly the rows of the requested range, counted from 1. */
  lemma LabelMatchesRange(page: int, total: nat)
    ensures Label(page, total).0 == RowRange(page).0 + 1
    ensures Label(page, total).1 <= RowRange(page).1 + 1
  {
  }

  /** The pagination bar: hidden for a single page, otherwise Prev, the page numbers and Next. */
  datatype Controls = Hidden | Shown(prev: bool, numbers: seq<int>, next: bool)

  function PaginationControls(page: int, totalPages: nat): (c: Controls)
    ensures c.Shown? <==> totalPages > 1
    ensures c.Shown? ==> (c.prev <==> page > 1) && (c.next <==> page < totalPages)
    ensures c.Shown? ==> |c.numbers| == totalPages && forall i :: 0 <= i < totalPages ==> c.numbers[i] == i + 1
  {
    if totalPages > 1
    then Shown(page > 1, seq(totalPages, i requires 0 <= i < totalPages => i + 1), page < totalPages)
    else Hidden
  }

  // ---------------------------------------------------------------------------
  // URLSearchParams

  type Params = seq<(string, string)>

  /** `params.getAll(key)`: every value stored under `key`, in order. */
  function ValuesOf(ps: Params, key: string): seq<string>
  {
    if ps == [] then []
    else if ps[0].0 == key then [ps[0].1] + ValuesOf(ps[1..], key)
    else ValuesOf(ps[1..], key)
  }

  /** `params.get(key)`: the first value stored under `key`, if any. */
  function Get(ps: Params, key: string): (r: Option<string>)
    ensures r.None? <==> ValuesOf(ps, key) == []
    ensures r.Some? ==> r.value == ValuesOf(ps, key)[0]
  {
    if ps == [] then None
    else if ps[0].0 == key then Some(ps[0].1)
    else Get(ps[1..], key)
  }

  /** `params.delete(key)`: removes every entry named `key`. */
  function Delete(ps: Params, key: string): (r: Params)
  {
    if ps == [] then []
    else if ps[0].0 == key then Delete(ps[1..], key)
    else [ps[0]] + Delete(ps[1..], key)
  }

  /**
   * `params.set(key, value)`: the first entry named `key` takes the value and the
   * other entries with that name go; with no such entry, one is appended.
   */
  function Set(ps: Params, key: string, value: string): (r: Params)
  {
    if ps == [] then [(key, value)]
    else if ps[0].0 == key then [(key, value)] + Delete(ps[1..], key)
    else [ps[0]] + Set(ps[1..], key, value)
  }

  /** After `delete(key)` there is no value under `key`, and every other name keeps its values. */
  lemma {:induction false} DeleteValues(ps: Params, key: string, other: string)
    ensures ValuesOf(Delete(ps, key), key) == []
    ensures other != key ==> ValuesOf(Delete(ps, key), other) == ValuesOf(ps, other)
  {
    if ps != [] {
      DeleteValues(ps[1..], key, other);
    }
  }

  /** After `set(key, value)`, `value` is the only value under `key`, and every other name keeps its values. */
  lemma {:induction false} SetValues(ps: Params, key: string, value: string, other: string)
    ensures ValuesOf(Set(ps, key, value), key) == [value]
    ensures other != key ==> ValuesOf(Set(ps, key, value), other) == ValuesOf(ps, other)
  {
    if ps != [] {
      if ps[0].0 == key {
        DeleteValues(ps[1..], key, other);
      } else {
        SetValues(ps[1..], key, value, other);
      }
    }
  }

  /** One `[key, value]` entry of `Object.entries(newParams)`: `null` deletes, a string sets. */
  function ApplyEntry(ps: Params, e: (string, Option<string>)): Params
  {
    match e.1
    case None => Delete(ps, e.0)
    case Some(v) => Set(ps, e.0, v)
  }

  /** The `forEach` over the entries, applied in order. */
  function ApplyEntries(ps: Params, es: seq<(string, Option<string>)>): Params
  {
    if es == [] then ps else ApplyEntry(ApplyEntries(ps, es[..|es| - 1]), es[|es| - 1])
  }

  predicate HasKey(es: seq<(string, Option<string>)>, key: string)
  {
    exists i :: 0 <= i < |es| && es[i].0 == key
  }

  /** Object keys are distinct. */
  predicate DistinctKeys(es: seq<(string, Option<string>)>)
  {
    forall i, j :: 0 <= i < j < |es| ==> es[i].0 != es[j].0
  }

  /** The values an entry leaves under its own name. */
  function EntryValues(v: Option<string>): seq<string>
  {
    match v
    case None => []
    case Some(s) => [s]
  }

  lemma ApplyEntryValues(ps: Params, e: (string, Option<string>), other: string)
    ensures ValuesOf(ApplyEntry(ps, e), e.0) == EntryValues(e.1)
    ensures other != e.0 ==> ValuesOf(ApplyEntry(ps, e), other) == ValuesOf(ps, other)
  {
    match e.1
    case None => DeleteValues(ps, e.0, other);
    case Some(v) => SetValues(ps, e.0, v, other);
  }

  /** A name none of the entries mentions keeps exactly its values. */
  lemma {:induction false} ApplyEntriesUntouched(ps: Params, es: seq<(string, Option<string>)>, key: string)
    requires !HasKey(es, key)
    ensures ValuesOf(ApplyEntries(ps, es), key) == ValuesOf(ps, key)
  {
    if es != [] {
      var init := es[..|es| - 1];
      ApplyEntriesUntouched(ps, init, key);
      ApplyEntryValues(ApplyEntries(ps, init), es[|es| - 1], key);
    }
  }

  /** With distinct keys, each entry's name ends with exactly the values that entry asked for. */
  lemma {:induction false} ApplyEntriesTouched(ps: Params, es: seq<(string, Option<string>)>, i: nat)
    requires DistinctKeys(es) && i < |es|
    ensures ValuesOf(ApplyEntries(ps, es), es[i].0) == EntryValues(es[i].1)
  {
    var init := es[..|es| - 1];
    var last := es[|es| - 1];
    if i == |es| - 1 {
      ApplyEntryValues(ApplyEntries(ps, init), last, last.0);
    } else {
      assert DistinctKeys(init);
      assert init[i] == es[i];
      ApplyEntriesTouched(ps, init, i);
      ApplyEntryValues(ApplyEntries(ps, init), last, es[i].0);
    }
  }

  /** `params.toString()`: `name=value` pairs, form-urlencoded, joined by `&`. */
  function Serialize(ps: Params): string
  {
    if ps == [] then ""
    else
      var pair := FormEncode(ps[0].0) + "=" + FormEncode(ps[0].1);
      if |ps| == 1 then pair else pair + "&" + Serialize(ps[1..])
  }

  // ---------------------------------------------------------------------------
  // updateParams

  /** What `updateParams` computes, as written: the entries, then `page` forced to "1". */
  function UpdatedParams(current: Params, newParams: seq<(string, Option<string>)>): Params
  {
    Set(ApplyEntries(current, newParams), "page", "1")
  }

  /**
   * `updateParams(newParams)`: copy the current parameters, delete or set each entry
   * in turn, set `page` to "1" and navigate to `/plants?` followed by the result.
   */
  method UpdateParams(current: Params, newParams: seq<(string, Option<string>)>) returns (params: Params, target: string)
    ensures params == UpdatedParams(current, newParams)
    ensures target == "/plants?" + Serialize(params)
  {
    params := current;
    var i := 0;
    while i < |newParams|
      invariant 0 <= i <= |newParams|
      invariant params == ApplyEntries(current, newParams[..i])
    {
      var (key, value) := newParams[i];
      match value {
        case None => params := Delete(params, key);
        case Some(v) => params := Set(params, key, v);
      }
      assert newParams[..i + 1][..i] == newParams[..i];
      i := i + 1;
    }
    assert newParams[..|newParams|] == newParams;
    params := Set(params, "page", "1");
    target := "/plants?" + Serialize(params);
  }

  /** After `updateParams`, `page` is always exactly "1", whatever was asked for. */
  lemma UpdatedParamsFirstPage(current: Params, newParams: seq<(string, Option<string>)>)
    ensures ValuesOf(UpdatedParams(current, newParams), "page") == ["1"]
    ensures Get(UpdatedParams(current, newParams), "page") == Some("1")
  {
    SetValues(ApplyEntries(current, newParams), "page", "1", "page");
  }

  /** Names other than `page` get what the entries ask for, and names the entries omit are unchanged. */
  lemma UpdatedParamsOtherKeys(current: Params, newParams: seq<(string, Option<string>)>, key: string)
    requires key != "page" && DistinctKeys(newParams)
    ensures !HasKey(newParams, key) ==> ValuesOf(UpdatedParams(current, newParams), key) == ValuesOf(current, key)
    ensures forall i :: 0 <= i < |newParams| && newParams[i].0 == key ==>
      ValuesOf(UpdatedParams(current, newParams), key) == EntryValues(newParams[i].1)
  {
    SetValues(ApplyEntries(current, newParams), "page", "1", key);
    if !HasKey(newParams, key) {
      ApplyEntriesUntouched(current, newParams, key);
    }
    forall i | 0 <= i < |newParams| && newParams[i].0 == key
      ensures ValuesOf(UpdatedParams(current, newParams), key) == EntryValues(newParams[i].1)
    {
      ApplyEntriesTouched(current, newParams, i);
    }
  }

  /** The intended merge: `page` goes back to "1" only when the entries do not name a page themselves. */
  function UpdatedParamsIntended(current: Params, newParams: seq<(string, Option<string>)>): Params
  {
    var merged := ApplyEntries(current, newParams);
    if HasKey(newParams, "page") then merged else Set(merged, "page", "1")
  }

  /** The intended merge keeps a requested page, resets the page on a filter change, and treats other names alike. */
  lemma IntendedKeepsRequestedPage(current: Params, newParams: seq<(string, Option<string>)>, key: string)
    requires DistinctKeys(newParams)
    ensures forall i :: 0 <= i < |newParams| && newParams[i].0 == "page" ==>
      ValuesOf(UpdatedParamsIntended(current, newParams), "page") == EntryValues(newParams[i].1)
    ensures !HasKey(newParams, "page") ==> ValuesOf(UpdatedParamsIntended(current, newParams), "page") == ["1"]
    ensures key != "page" ==>
      ValuesOf(UpdatedParamsIntended(current, newParams), key) == ValuesOf(UpdatedParams(current, newParams), key)
  {
    var merged := ApplyEntries(current, newParams);
    SetValues(merged, "page", "1", key);
    forall i | 0 <= i < |newParams| && newParams[i].0 == "page"
      ensures ValuesOf(UpdatedParamsIntended(current, newParams), "page") == EntryValues(newParams[i].1)
    {
      ApplyEntriesTouched(current, newParams, i);
    }
    if !HasKey(newParams, "page") {
      SetValues(merged, "page", "1", "page");
    }
  }

  // ---------------------------------------------------------------------------
  // Reading the query string

  /** What a render reads from the query string: the name filter, the category filter and the page (`None` for NaN). */
  datatype CatalogueQuery = CatalogueQuery(nameFilter: Option<string>, categoryFilter: Option<string>, page: Option<int>)

  function OrEmpty(v: Option<string>): string
  {
    match v
    case None => ""
    case Some(s) => s
  }

  /** `q`, `cat` and `page` as the page reads them, and the filters `load` applies. */
  function LoadQuery(ps: Params): (r: CatalogueQuery)
    ensures r.nameFilter.None? <==> OrEmpty(Get(ps, "q")) == ""
    ensures r.nameFilter.Some? ==> r.nameFilter.value == "%" + OrEmpty(Get(ps, "q")) + "%"
    ensures r.categoryFilter.None? <==> OrEmpty(Get(ps, "category")) == ""
    ensures r.categoryFilter.Some? ==> r.categoryFilter.value == OrEmpty(Get(ps, "category"))
    ensures Get(ps, "page").None? ==> r.page == Some(1)
    ensures Get(ps, "page").Some? ==> r.page == ParseInt(Get(ps, "page").value)
  {
    var q := OrEmpty(Get(ps, "q"));
    var cat := OrEmpty(Get(ps, "category"));
    var pageText := match Get(ps, "page") case None => "1" case Some(s) => s;
    assert ParseInt(IntToString(1)) == Some(1) by { ParseIntOfIntToString(1); }
    assert IntToString(1) == "1";
    CatalogueQuery(if q == "" then None else Some("%" + q + "%"),
                   if cat == "" then None else Some(cat),
                   ParseInt(pageText))
  }

  /** Clicking Next as written reloads page 1; the intended merge reloads the next page. */
  lemma NextButtonTarget(current: Params, page: int)
    ensures LoadQuery(UpdatedParams(current, [("page", Some(IntToString(page + 1)))])).page == Some(1)
    ensures LoadQuery(UpdatedParamsIntended(current, [("page", Some(IntToString(page + 1)))])).page == Some(page + 1)
  {
    var es := [("page", Some(IntToString(page + 1)))];
    UpdatedParamsFirstPage(current, es);
    ParseIntOfIntToString(1);
    assert IntToString(1) == "1";
    assert HasKey(es, "page") by { assert es[0].0 == "page"; }
    IntendedKeepsRequestedPage(current, es, "page");
    ParseIntOfIntToString(page + 1);
  }
}
