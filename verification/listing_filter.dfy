/**
 * The filter panel (src/components/listing/ListingFilter.tsx): five text
 * fields, each change reported to the parent through `onFilterChange`,
 * a clear button that resets the fields and calls `onClearFilters`, and
 * quick price-range buttons.
 */
module ListingFilter {
  /** The fields of the panel, `keyof FilterOptions`. */
  datatype Key = Category | MinPrice | MaxPrice | Location | SortBy

  datatype Filters = Filters(category: string, minPrice: string, maxPrice: string, location: string, sortBy: string)

  const Newest: string := "newest"

  /** The initial and the cleared state: every field empty except `sortBy`. */
  const Default: Filters := Filters("", "", "", "", Newest)

  /** `filters[key]`. */
  function Get(f: Filters, k: Key): string {
    match k
    case Category => f.category
    case MinPrice => f.minPrice
    case MaxPrice => f.maxPrice
    case Location => f.location
    case SortBy => f.sortBy
  }

  /** `{ ...filters, [key]: value }`. */
  function Set(f: Filters, k: Key, v: string): (r: Filters)
    ensures Get(r, k) == v
    ensures forall j :: j != k ==> Get(r, j) == Get(f, j)
  {
    match k
    case Category => f.(category := v)
    case MinPrice => f.(minPrice := v)
    case MaxPrice => f.(maxPrice := v)
    case Location => f.(location := v)
    case SortBy => f.(sortBy := v)
  }

  /** Two filter states with the same value under every key are the same state. */
  lemma FiltersExtensional(f: Filters, g: Filters)
    requires forall k :: Get(f, k) == Get(g, k)
    ensures f == g
  {
    assert Get(f, Category) == Get(g, Category) && Get(f, MinPrice) == Get(g, MinPrice);
    assert Get(f, MaxPrice) == Get(g, MaxPrice) && Get(f, Location) == Get(g, Location);
    assert Get(f, SortBy) == Get(g, SortBy);
  }

  /**
   * The panel: its current filters, every state passed to `onFilterChange`
   * (oldest first), and how many times `onClearFilters` was called.
   */
  datatype Panel = Panel(filters: Filters, reported: seq<Filters>, clears: nat)

  const Initial: Panel := Panel(Default, [], 0)

  /** `handleFilterChange(key, value)`: only `key` changes, and the new state is reported. */
  function HandleFilterChange(p: Panel, k: Key, v: string): (r: Panel)
    ensures Get(r.filters, k) == v
    ensures forall j :: j != k ==> Get(r.filters, j) == Get(p.filters, j)
    ensures r.reported == p.reported + [r.filters] && r.clears == p.clears
  {
    var next := Set(p.filters, k, v);
    Panel(next, p.reported + [next], p.clears)
  }

  /** `handleClearFilters`: back to the default state; the parent is told through `onClearFilters` only. */
  function HandleClearFilters(p: Panel): (r: Panel)
    ensures r.filters == Default && r.reported == p.reported && r.clears == p.clears + 1
  {
    Panel(Default, p.reported, p.clears + 1)
  }

  /** A field counts as active when it is neither empty nor `newest`, whichever field it is. */
  predicate Active(v: string) {
    v != "" && v != Newest
  }

  /** `Object.values(filters).some(value => value !== '' && value !== 'newest')`. */
  predicate HasActiveFilters(f: Filters) {
    var values := [f.category, f.minPrice, f.maxPrice, f.location, f.sortBy];
    exists i :: 0 <= i < |values| && Active(values[i])
  }

  /** The scan over the values agrees with asking every key. */
  lemma HasActiveFiltersByKey(f: Filters)
    ensures HasActiveFilters(f) <==> exists k :: Active(Get(f, k))
  {
    var values := [f.category, f.minPrice, f.maxPrice, f.location, f.sortBy];
    if HasActiveFilters(f) {
      var i :| 0 <= i < |values| && Active(values[i]);
      var k := [Category, MinPrice, MaxPrice, Location, SortBy][i];
      assert Get(f, k) == values[i];
    }
    if exists k :: Active(Get(f, k)) {
      var k :| Active(Get(f, k));
      match k
      case Category => assert Active(values[0]);
      case MinPrice => assert Active(values[1]);
      case MaxPrice => assert Active(values[2]);
      case Location => assert Active(values[3]);
      case SortBy => assert Active(values[4]);
    }
  }

  /** The default state shows no active filter, and after clearing none is shown. */
  lemma ClearedIsInactive(p: Panel)
    ensures !HasActiveFilters(HandleClearFilters(p).filters)
  {
    HasActiveFiltersByKey(Default);
  }

  /** Setting one field to an active value makes the panel active; clearing undoes any change. */
  lemma ChangeThenClear(p: Panel, k: Key, v: string)
    requires Active(v)
    ensures HasActiveFilters(HandleFilterChange(p, k, v).filters)
    ensures HandleClearFilters(HandleFilterChange(p, k, v)).filters == HandleClearFilters(p).filters
  {
    HasActiveFiltersByKey(HandleFilterChange(p, k, v).filters);
  }

  /**
   * A quick price-range button as written: two `handleFilterChange` calls
   * in one click, each spreading the `filters` captured when the panel was
   * drawn. The second call's state replaces the first's.
   */
  function QuickRangeAsWritten(p: Panel, low: string, high: string): (r: Panel)
    ensures |r.reported| == |p.reported| + 2 && r.reported[..|p.reported|] == p.reported
    ensures r.reported[|p.reported| + 1] == r.filters
    ensures Get(r.filters, MaxPrice) == high
    ensures forall k :: k != MaxPrice ==> Get(r.filters, k) == Get(p.filters, k)
  {
    var captured := p.filters;
    var first := Set(captured, MinPrice, low);
    var second := Set(captured, MaxPrice, high);
    Panel(second, p.reported + [first, second], p.clears)
  }

  /** The lowest range button on a fresh panel leaves the minimum price unset. */
  lemma QuickRangeLosesMinimum()
    ensures Get(QuickRangeAsWritten(Initial, "0", "50000").filters, MinPrice) == ""
    ensures Get(QuickRangeAsWritten(Initial, "0", "50000").reported[1], MinPrice) == ""
  {
  }

  /**
   * A quick price-range button with both fields set in one update: the
   * range the button names is what the panel keeps and what it reports.
   */
  function QuickRange(p: Panel, low: string, high: string): (r: Panel)
    ensures Get(r.filters, MinPrice) == low && Get(r.filters, MaxPrice) == high
    ensures forall k :: k != MinPrice && k != MaxPrice ==> Get(r.filters, k) == Get(p.filters, k)
    ensures r.reported == p.reported + [r.filters] && r.clears == p.clears
  {
    var next := Set(Set(p.filters, MinPrice, low), MaxPrice, high);
    Panel(next, p.reported + [next], p.clears)
  }

  /** The corrected button ends where two changes applied one after the other end. */
  lemma {:induction false} QuickRangeIsSequential(p: Panel, low: string, high: string)
    ensures QuickRange(p, low, high).filters == HandleFilterChange(HandleFilterChange(p, MinPrice, low), MaxPrice, high).filters
  {
    var a := QuickRange(p, low, high).filters;
    var b := HandleFilterChange(HandleFilterChange(p, MinPrice, low), MaxPrice, high).filters;
    forall k ensures Get(a, k) == Get(b, k) {
    }
    FiltersExtensional(a, b);
  }
}
