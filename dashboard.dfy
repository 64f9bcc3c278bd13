/**
 * The admin dashboard's list logic (src/app/admin/dashboard/page.tsx): the summary
 * totals computed when plants are loaded, the filter-and-sort effect behind the
 * table, and the status badge shown for each row. Loading from the database is not
 * modelled: the loaded rows are an input.
 */
module Dashboard {
  import opened Text
  import CreatePage

  /** A JavaScript value that may be missing (`undefined`), `null`, or present. */
  datatype JsValue<T> = Undefined | Null | Defined(value: T)

  /**
   * A loaded row. Text fields that may be missing or null are `Option`s (the code
   * treats both alike for them); `quantity` keeps the three cases apart because
   * `getStatusBadge` does. `createdTime` is the timestamp `new Date(created_at || 0)`
   * yields, so a row without `created_at` has time 0.
   */
  datatype Plant = Plant(
    id: string,
    commonName: string,
    scientificName: Option<string>,
    isFeatured: bool,
    createdTime: int,
    categoryId: Option<string>,
    quantity: JsValue<int>,
    status: Option<string>,
    sku: Option<string>)

  /** `p.quantity || 0`. */
  function QuantityOrZero(p: Plant): int
  {
    match p.quantity
    case Defined(q) => q
    case _ => 0
  }

  // ---------------------------------------------------------------------------
  // Totals

  datatype Totals = Totals(plants: nat, featured: nat, lowStock: nat, totalQuantity: int)

  predicate IsFeatured(p: Plant)
  {
    p.isFeatured
  }

  /** The dashboard's low-stock test: a defined, non-null quantity of at most 5. */
  predicate CountsAsLowStock(p: Plant)
  {
    p.quantity.Defined? && p.quantity.value <= 5
  }

  /** `plantsData.reduce((sum, p) => sum + (p.quantity || 0), 0)`. */
  function SumQuantity(ps: seq<Plant>): int
  {
    if ps == [] then 0 else QuantityOrZero(ps[0]) + SumQuantity(ps[1..])
  }

  /** The summary cards computed in `loadPlants`. */
  function ComputeTotals(ps: seq<Plant>): (t: Totals)
    ensures t.plants == |ps|
    ensures t.featured <= t.plants && t.lowStock <= t.plants
  {
    Totals(|ps|, Count(ps, IsFeatured), Count(ps, CountsAsLowStock), SumQuantity(ps))
  }

  function AddTotals(a: Totals, b: Totals): Totals
  {
    Totals(a.plants + b.plants, a.featured + b.featured, a.lowStock + b.lowStock, a.totalQuantity + b.totalQuantity)
  }

  lemma {:induction false} SumQuantityAppend(a: seq<Plant>, b: seq<Plant>)
    ensures SumQuantity(a + b) == SumQuantity(a) + SumQuantity(b)
  {
    if a == [] {
      assert a + b == b;
    } else {
      var ab := a + b;
      assert ab[0] == a[0] && ab[1..] == a[1..] + b;
      SumQuantityAppend(a[1..], b);
    }
  }

  /** Totals of two lists together are the sums of their totals: each card counts rows independently. */
  lemma TotalsAppend(a: seq<Plant>, b: seq<Plant>)
    ensures ComputeTotals(a + b) == AddTotals(ComputeTotals(a), ComputeTotals(b))
  {
    SumQuantityAppend(a, b);
    CountAppend(a, b, IsFeatured);
    CountAppend(a, b, CountsAsLowStock);
  }

  /** The totals of a single row. */
  lemma TotalsOne(p: Plant)
    ensures ComputeTotals([p]) == Totals(1, if p.isFeatured then 1 else 0,
                                         if CountsAsLowStock(p) then 1 else 0, QuantityOrZero(p))
  {
    var one := [p];
    assert one[1..] == [];
    assert Count(one, CountsAsLowStock) == (if CountsAsLowStock(p) then 1 else 0) + Count(one[1..], CountsAsLowStock);
    assert Count(one, IsFeatured) == (if p.isFeatured then 1 else 0) + Count(one[1..], IsFeatured);
    assert SumQuantity(one) == QuantityOrZero(p) + SumQuantity(one[1..]);
  }

  /** With every stored quantity non-negative, the stock total is non-negative. */
  lemma {:induction false} SumQuantityNonNegative(ps: seq<Plant>)
    requires forall i :: 0 <= i < |ps| ==> QuantityOrZero(ps[i]) >= 0
    ensures SumQuantity(ps) >= 0
  {
    if ps != [] {
      SumQuantityNonNegative(ps[1..]);
    }
  }

  // ---------------------------------------------------------------------------
  // Status badge

  datatype Badge = AvailableBadge | LowStockBadge | OutOfStockBadge | OtherBadge(text: string)

  /** JavaScript truthiness of an optional string. */
  predicate Truthy(s: Option<string>)
  {
    s.Some? && s.value != ""
  }

  /** The status the quantity stands for when no status is stored. */
  function FallbackStatus(quantity: JsValue<int>): string
  {
    match quantity
    case Defined(q) => if q == 0 then "out_of_stock" else if q <= 5 then "low_stock" else "available"
    case _ => "available"
  }

  /** `getStatusBadge(status, quantity)`; `None` is the `null` it returns. */
  function GetStatusBadge(status: Option<string>, quantity: JsValue<int>): (r: Option<Badge>)
    ensures r.None? <==> !Truthy(status) && quantity.Undefined?
    ensures r.Some? && !Truthy(status) ==> !r.value.OtherBadge?
  {
    if !Truthy(status) && quantity.Undefined? then None
    else
      var actual := if Truthy(status) then status.value else FallbackStatus(quantity);
      if actual == "available" then Some(AvailableBadge)
      else if actual == "low_stock" then Some(LowStockBadge)
      else if actual == "out_of_stock" then Some(OutOfStockBadge)
      else Some(OtherBadge(status.value))
  }

  /** A stored status decides the badge whatever the quantity. */
  lemma StatusTakesPrecedence(status: Option<string>, q1: JsValue<int>, q2: JsValue<int>)
    requires Truthy(status)
    ensures GetStatusBadge(status, q1) == GetStatusBadge(status, q2)
    ensures GetStatusBadge(status, q1).Some?
  {
  }

  /** Without a stored status, the quantity decides: 0 is out, up to 5 is low, above 5 is available; `null` reads as available. */
  lemma BadgeFallback(status: Option<string>, quantity: JsValue<int>)
    requires !Truthy(status)
    ensures quantity == Defined(0) ==> GetStatusBadge(status, quantity) == Some(OutOfStockBadge)
    ensures quantity.Defined? && quantity.value != 0 && quantity.value <= 5 ==>
      GetStatusBadge(status, quantity) == Some(LowStockBadge)
    ensures quantity.Defined? && quantity.value > 5 ==> GetStatusBadge(status, quantity) == Some(AvailableBadge)
    ensures quantity.Null? ==> GetStatusBadge(status, quantity) == Some(AvailableBadge)
  {
  }

  /** The low-stock card counts exactly the rows whose quantity alone would give an out-of-stock or low-stock badge. */
  lemma LowStockCardMatchesBadge(p: Plant)
    ensures CountsAsLowStock(p) <==>
      GetStatusBadge(None, p.quantity) in {Some(OutOfStockBadge), Some(LowStockBadge)}
  {
  }

  function StockBadge(s: CreatePage.StockStatus): Badge
  {
    match s
    case OutOfStock => OutOfStockBadge
    case LowStock => LowStockBadge
    case Available => AvailableBadge
  }

  /** The dashboard's fallback is the create page's preview with the minimum stock fixed at 5. */
  lemma FallbackIsCreatePreviewAtFive(q: int)
    ensures GetStatusBadge(None, Defined(q)) == Some(StockBadge(CreatePage.GetStockStatus(q, 5)))
  {
  }

  /** The two thresholds are not the same rule: with a minimum of 2, three units are low on the dashboard but available on the create page. */
  lemma ThresholdsDiffer()
    ensures CreatePage.GetStockStatus(3, 2) == CreatePage.Available
    ensures GetStatusBadge(None, Defined(3)) == Some(LowStockBadge)
    ensures CreatePage.GetStockStatus(8, 10) == CreatePage.LowStock
    ensures GetStatusBadge(None, Defined(8)) == Some(AvailableBadge)
  {
  }

  // ---------------------------------------------------------------------------
  // Filters

  /** The search test, with `query` already lower-cased. */
  predicate MatchesSearch(p: Plant, query: string)
  {
    Contains(ToLower(p.commonName), query)
    || (p.scientificName.Some? && Contains(ToLower(p.scientificName.value), query))
    || (p.sku.Some? && Contains(ToLower(p.sku.value), query))
  }

  /** `filtered.filter(p => ...includes(query))`, with `query` already lower-cased. */
  function SearchFiltered(ps: seq<Plant>, query: string): (r: seq<Plant>)
    ensures forall p :: p in r <==> p in ps && MatchesSearch(p, query)
    ensures multiset(r) <= multiset(ps)
  {
    Filter(ps, (p: Plant) => MatchesSearch(p, query))
  }

  /** `filtered.filter(p => p.category_id === categoryFilter)`. */
  function CategoryFiltered(ps: seq<Plant>, categoryFilter: string): (r: seq<Plant>)
    ensures forall p :: p in r <==> p in ps && p.categoryId == Some(categoryFilter)
    ensures multiset(r) <= multiset(ps)
  {
    Filter(ps, (p: Plant) => p.categoryId == Some(categoryFilter))
  }

  /** `filtered.filter(p => p.status === statusFilter)`. */
  function StatusFiltered(ps: seq<Plant>, statusFilter: string): (r: seq<Plant>)
    ensures forall p :: p in r <==> p in ps && p.status == Some(statusFilter)
    ensures multiset(r) <= multiset(ps)
  {
    Filter(ps, (p: Plant) => p.status == Some(statusFilter))
  }

  /** What the three filters together ask of a row. */
  predicate MatchesFilters(p: Plant, searchQuery: string, categoryFilter: string, statusFilter: string)
  {
    (searchQuery == "" || MatchesSearch(p, ToLower(searchQuery)))
    && (categoryFilter == "all" || p.categoryId == Some(categoryFilter))
    && (statusFilter == "all" || p.status == Some(statusFilter))
  }

  /** The rows that survive the filter stages, in loaded order. */
  function Selected(plants: seq<Plant>, searchQuery: string, categoryFilter: string, statusFilter: string): (r: seq<Plant>)
    ensures forall p :: p in r <==> p in plants && MatchesFilters(p, searchQuery, categoryFilter, statusFilter)
    ensures multiset(r) <= multiset(plants)
  {
    var afterSearch := if searchQuery == "" then plants else SearchFiltered(plants, ToLower(searchQuery));
    var afterCategory := if categoryFilter == "all" then afterSearch else CategoryFiltered(afterSearch, categoryFilter);
    if statusFilter == "all" then afterCategory else StatusFiltered(afterCategory, statusFilter)
  }

  /** An empty search and two "all" filters select every loaded row. */
  lemma SelectedNoFilters(plants: seq<Plant>)
    ensures Selected(plants, "", "all", "all") == plants
  {
  }

  // ---------------------------------------------------------------------------
  // Sort orders

  datatype SortOrder = NameAsc | NameDesc | CreatedDesc | CreatedAsc | QuantityDesc | QuantityAsc

  /** The `switch (sortBy)`: any other value leaves the list unsorted. */
  function ParseSortOrder(sortBy: string): (r: Option<SortOrder>)
    ensures r.Some? <==> sortBy in {"name_asc", "name_desc", "created_desc", "created_asc", "quantity_desc", "quantity_asc"}
  {
    if sortBy == "name_asc" then Some(NameAsc)
    else if sortBy == "name_desc" then Some(NameDesc)
    else if sortBy == "created_desc" then Some(CreatedDesc)
    else if sortBy == "created_asc" then Some(CreatedAsc)
    else if sortBy == "quantity_desc" then Some(QuantityDesc)
    else if sortBy == "quantity_asc" then Some(QuantityAsc)
    else None
  }

  /** Code-point lexicographic order, standing for `localeCompare`. */
  predicate LexLe(s: string, t: string)
  {
    s == [] || (t != [] && (s[0] < t[0] || (s[0] == t[0] && LexLe(s[1..], t[1..]))))
  }

  lemma {:induction false} LexLeTotal(s: string, t: string)
    ensures LexLe(s, t) || LexLe(t, s)
  {
    if s != [] && t != [] && s[0] == t[0] {
      LexLeTotal(s[1..], t[1..]);
    }
  }

  lemma {:induction false} LexLeTransitive(s: string, t: string, u: string)
    requires LexLe(s, t) && LexLe(t, u)
    ensures LexLe(s, u)
  {
    if s != [] && t != [] && u != [] && s[0] == t[0] && t[0] == u[0] {
      LexLeTransitive(s[1..], t[1..], u[1..]);
    }
  }

  /** `compare(a, b) <= 0` for the comparator of each order: `a` may stay before `b`. */
  predicate Le(order: SortOrder, a: Plant, b: Plant)
  {
    match order
    case NameAsc => LexLe(a.commonName, b.commonName)
    case NameDesc => LexLe(b.commonName, a.commonName)
    case CreatedDesc => b.createdTime <= a.createdTime
    case CreatedAsc => a.createdTime <= b.createdTime
    case QuantityDesc => QuantityOrZero(b) <= QuantityOrZero(a)
    case QuantityAsc => QuantityOrZero(a) <= QuantityOrZero(b)
  }

  lemma LeTotal(order: SortOrder, a: Plant, b: Plant)
    ensures Le(order, a, b) || Le(order, b, a)
  {
    LexLeTotal(a.commonName, b.commonName);
  }

  lemma LeTransitive(order: SortOrder, a: Plant, b: Plant, c: Plant)
    requires Le(order, a, b) && Le(order, b, c)
    ensures Le(order, a, c)
  {
    match order
    case NameAsc => LexLeTransitive(a.commonName, b.commonName, c.commonName);
    case NameDesc => LexLeTransitive(c.commonName, b.commonName, a.commonName);
    case _ =>
  }

  predicate Sorted(s: seq<Plant>, order: SortOrder)
  {
    forall i, j :: 0 <= i < j < |s| ==> Le(order, s[i], s[j])
  }

  function Reverse<T>(s: seq<T>): (r: seq<T>)
    ensures |r| == |s|
    ensures forall i :: 0 <= i < |s| ==> r[i] == s[|s| - 1 - i]
  {
    seq(|s|, i requires 0 <= i < |s| => s[|s| - 1 - i])
  }

  /** `name_asc` and `name_desc` are reverse orders: a list is sorted one way exactly when its reverse is sorted the other. */
  lemma NameOrdersReversed(s: seq<Plant>)
    ensures Sorted(s, NameAsc) <==> Sorted(Reverse(s), NameDesc)
  {
    var r := Reverse(s);
    var n := |s|;
    if Sorted(s, NameAsc) {
      forall i, j | 0 <= i < j < n ensures Le(NameDesc, r[i], r[j]) {
        assert Le(NameAsc, s[n - 1 - j], s[n - 1 - i]);
      }
    }
    if Sorted(r, NameDesc) {
      forall i, j | 0 <= i < j < n ensures Le(NameAsc, s[i], s[j]) {
        assert r[n - 1 - j] == s[j] && r[n - 1 - i] == s[i];
        assert Le(NameDesc, r[n - 1 - j], r[n - 1 - i]);
      }
    }
  }

  /** Quantity orders read missing quantities as 0: `quantity_asc` is non-decreasing and `quantity_desc` non-increasing in that value. */
  lemma QuantityOrdersMonotone(s: seq<Plant>)
    ensures Sorted(s, QuantityAsc) ==> forall i :: 0 <= i < |s| - 1 ==> QuantityOrZero(s[i]) <= QuantityOrZero(s[i + 1])
    ensures Sorted(s, QuantityDesc) ==> forall i :: 0 <= i < |s| - 1 ==> QuantityOrZero(s[i]) >= QuantityOrZero(s[i + 1])
  {
  }

  // ---------------------------------------------------------------------------
  // The filter effect

  /** During insertion of `s[j]`: every ordered pair up to `i` that avoids `j` is in order. */
  predicate SortedExcept(s: seq<Plant>, i: nat, j: nat, order: SortOrder)
    requires i < |s|
  {
    forall k, l :: 0 <= k < l <= i && k != j && l != j ==> Le(order, s[k], s[l])
  }

  /** During insertion of `s[j]`: it may precede everything after it up to `i`. */
  predicate PrecedesRest(s: seq<Plant>, i: nat, j: nat, order: SortOrder)
    requires j <= i < |s|
  {
    forall l :: j < l <= i ==> Le(order, s[j], s[l])
  }

  /** Swapping the inserted element one place to the left keeps both insertion invariants. */
  lemma SwapKeepsInsertionInvariant(s: seq<Plant>, i: nat, j: nat, order: SortOrder)
    requires 0 < j <= i < |s|
    requires SortedExcept(s, i, j, order) && PrecedesRest(s, i, j, order)
    requires !Le(order, s[j - 1], s[j])
    ensures SortedExcept(s[j - 1 := s[j]][j := s[j - 1]], i, j - 1, order)
    ensures PrecedesRest(s[j - 1 := s[j]][j := s[j - 1]], i, j - 1, order)
  {
    LeTotal(order, s[j - 1], s[j]);
  }

  /** Once the inserted element is in place, the whole prefix up to `i` is sorted. */
  lemma InsertionDone(s: seq<Plant>, i: nat, j: nat, order: SortOrder)
    requires j <= i < |s|
    requires SortedExcept(s, i, j, order) && PrecedesRest(s, i, j, order)
    requires j == 0 || Le(order, s[j - 1], s[j])
    ensures forall k, l :: 0 <= k < l <= i ==> Le(order, s[k], s[l])
  {
    forall k, l | 0 <= k < l <= i ensures Le(order, s[k], s[l]) {
      if l == j && k < j - 1 {
        LeTransitive(order, s[k], s[j - 1], s[j]);
      }
    }
  }

  /** Moves `a[i]` left past every element it must follow, so that `a[..i + 1]` is sorted. */
  method InsertIntoSorted(a: array<Plant>, i: nat, order: SortOrder)
    requires i < a.Length
    requires forall k, l :: 0 <= k < l < i ==> Le(order, a[k], a[l])
    modifies a
    ensures forall k, l :: 0 <= k < l <= i ==> Le(order, a[k], a[l])
    ensures multiset(a[..]) == multiset(old(a[..]))
  {
    var j := i;
    while j > 0 && !Le(order, a[j - 1], a[j])
      invariant 0 <= j <= i
      invariant SortedExcept(a[..], i, j, order) && PrecedesRest(a[..], i, j, order)
      invariant multiset(a[..]) == multiset(old(a[..]))
    {
      SwapKeepsInsertionInvariant(a[..], i, j, order);
      a[j - 1], a[j] := a[j], a[j - 1];
      j := j - 1;
    }
    InsertionDone(a[..], i, j, order);
  }

  /** `filtered.sort(compare)`: insertion sort by adjacent swaps. */
  method SortInPlace(a: array<Plant>, order: SortOrder)
    modifies a
    ensures Sorted(a[..], order)
    ensures multiset(a[..]) == multiset(old(a[..]))
  {
    var i := 0;
    while i < a.Length
      invariant 0 <= i <= a.Length
      invariant forall k, l :: 0 <= k < l < i ==> Le(order, a[k], a[l])
      invariant multiset(a[..]) == multiset(old(a[..]))
    {
      InsertIntoSorted(a, i, order);
      i := i + 1;
    }
  }

  /**
   * The filter stages of the effect: search (when the query is non-empty), then
   * the category and status filters, each narrowing the list in turn.
   */
  method NarrowStages(plants: seq<Plant>, searchQuery: string, categoryFilter: string, statusFilter: string)
    returns (filtered: seq<Plant>)
    ensures filtered == Selected(plants, searchQuery, categoryFilter, statusFilter)
  {
    filtered := plants;
    if searchQuery != "" {
      var query := ToLower(searchQuery);
      filtered := SearchFiltered(filtered, query);
    }
    if categoryFilter != "all" {
      filtered := CategoryFiltered(filtered, categoryFilter);
    }
    if statusFilter != "all" {
      filtered := StatusFiltered(filtered, statusFilter);
    }
  }

  /** `filtered.sort(...)` under the `switch (sortBy)`; an unknown `sortBy` leaves the list alone. */
  method SortStage(filtered: seq<Plant>, sortBy: string) returns (sorted: seq<Plant>)
    ensures multiset(sorted) == multiset(filtered)
    ensures ParseSortOrder(sortBy).Some? ==> Sorted(sorted, ParseSortOrder(sortBy).value)
    ensures ParseSortOrder(sortBy).None? ==> sorted == filtered
  {
    sorted := filtered;
    match ParseSortOrder(sortBy) {
      case Some(order) =>
        var a := new Plant[|filtered|](i requires 0 <= i < |filtered| => filtered[i]);
        assert a[..] == filtered;
        SortInPlace(a, order);
        sorted := a[..];
      case None =>
    }
  }

  /** The filter effect: the filter stages, then the sort. */
  method ApplyFilters(plants: seq<Plant>, searchQuery: string, categoryFilter: string, statusFilter: string, sortBy: string)
    returns (filtered: seq<Plant>)
    ensures multiset(filtered) == multiset(Selected(plants, searchQuery, categoryFilter, statusFilter))
    ensures ParseSortOrder(sortBy).Some? ==> Sorted(filtered, ParseSortOrder(sortBy).value)
    ensures ParseSortOrder(sortBy).None? ==> filtered == Selected(plants, searchQuery, categoryFilter, statusFilter)
  {
    filtered := NarrowStages(plants, searchQuery, categoryFilter, statusFilter);
    filtered := SortStage(filtered, sortBy);
  }

  /** Every row the table shows was loaded; with no search and both filters at "all" it shows every loaded row. */
  lemma FilteredRowsAreLoaded(plants: seq<Plant>, filtered: seq<Plant>, searchQuery: string, categoryFilter: string, statusFilter: string)
    requires multiset(filtered) == multiset(Selected(plants, searchQuery, categoryFilter, statusFilter))
    ensures forall p :: p in filtered ==> p in plants
    ensures searchQuery == "" && categoryFilter == "all" && statusFilter == "all" ==> multiset(filtered) == multiset(plants)
  {
    forall p | p in filtered ensures p in plants {
      assert p in multiset(filtered);
    }
    if searchQuery == "" && categoryFilter == "all" && statusFilter == "all" {
      SelectedNoFilters(plants);
    }
  }
}
