/** The commodity store: the list of analysed commodities, the selection,
    the location picked in the region hierarchy, the active filters and the
    loading flag, with their setters and the filtered, sorted view. */
module Store {

  import opened Common
  import opened Sorting
  import opened Commodities
  import opened CalculateRca
  import opened Regions

  datatype CategoryFilter = All | Only(category: Category)

  datatype SortBy = SortByRca | SortByProductivity | SortByFinal | SortByName

  datatype CommodityFilters = CommodityFilters(
    category: CategoryFilter, minRca: real, sortBy: SortBy, searchQuery: string)

  /** Each level is either chosen or `None` (`null`). */
  datatype LocationSelection = LocationSelection(
    province: Option<Province>, regency: Option<Regency>, district: Option<District>)

  /** A `Partial<CommodityFilters>`: `None` marks a field the caller left out. */
  datatype FiltersPatch = FiltersPatch(
    category: Option<CategoryFilter>, minRca: Option<real>,
    sortBy: Option<SortBy>, searchQuery: Option<string>)

  /** A `Partial<LocationSelection>`: the outer `None` marks a field left
      out, `Some(None)` a field explicitly cleared to `null`. */
  datatype LocationPatch = LocationPatch(
    province: Option<Option<Province>>, regency: Option<Option<Regency>>,
    district: Option<Option<District>>)

  const DefaultFilters := CommodityFilters(All, 0.0, SortByFinal, "")

  const NoLocation := LocationSelection(None, None, None)

  /** The value of a field after a spread: the patch's when supplied. */
  function Pick<T>(current: T, supplied: Option<T>): T
  {
    if supplied.Some? then supplied.value else current
  }

  /** `{ ...filters, ...patch }`. */
  function MergeFilters(f: CommodityFilters, patch: FiltersPatch): (r: CommodityFilters)
    ensures patch.category.Some? ==> r.category == patch.category.value
    ensures patch.category.None? ==> r.category == f.category
    ensures patch.minRca.Some? ==> r.minRca == patch.minRca.value
    ensures patch.minRca.None? ==> r.minRca == f.minRca
    ensures patch.sortBy.Some? ==> r.sortBy == patch.sortBy.value
    ensures patch.sortBy.None? ==> r.sortBy == f.sortBy
    ensures patch.searchQuery.Some? ==> r.searchQuery == patch.searchQuery.value
    ensures patch.searchQuery.None? ==> r.searchQuery == f.searchQuery
  {
    CommodityFilters(
      Pick(f.category, patch.category), Pick(f.minRca, patch.minRca),
      Pick(f.sortBy, patch.sortBy), Pick(f.searchQuery, patch.searchQuery))
  }

  /** `{ ...location, ...patch }`. */
  function MergeLocation(l: LocationSelection, patch: LocationPatch): (r: LocationSelection)
    ensures patch.province.Some? ==> r.province == patch.province.value
    ensures patch.province.None? ==> r.province == l.province
    ensures patch.regency.Some? ==> r.regency == patch.regency.value
    ensures patch.regency.None? ==> r.regency == l.regency
    ensures patch.district.Some? ==> r.district == patch.district.value
    ensures patch.district.None? ==> r.district == l.district
  {
    LocationSelection(
      Pick(l.province, patch.province), Pick(l.regency, patch.regency),
      Pick(l.district, patch.district))
  }

  /** The patch that supplies what `q` supplies and otherwise what `p` does. */
  function ThenFilters(p: FiltersPatch, q: FiltersPatch): FiltersPatch
  {
    FiltersPatch(
      if q.category.Some? then q.category else p.category,
      if q.minRca.Some? then q.minRca else p.minRca,
      if q.sortBy.Some? then q.sortBy else p.sortBy,
      if q.searchQuery.Some? then q.searchQuery else p.searchQuery)
  }

  /** Two `setFilters` calls equal one with the combined patch, the later
      call winning; in particular repeating a call changes nothing. */
  lemma MergeFiltersCompose(f: CommodityFilters, p: FiltersPatch, q: FiltersPatch)
    ensures MergeFilters(MergeFilters(f, p), q) == MergeFilters(f, ThenFilters(p, q))
    ensures MergeFilters(MergeFilters(f, p), p) == MergeFilters(f, p)
  {
  }

  /** An empty patch leaves the filters as they are. */
  lemma MergeFiltersEmpty(f: CommodityFilters)
    ensures MergeFilters(f, FiltersPatch(None, None, None, None)) == f
  {
  }

  /** Resetting is supplying every default field: the result no longer
      depends on the filters before. */
  lemma ResetIsFullPatch(f: CommodityFilters)
    ensures MergeFilters(f, FiltersPatch(Some(All), Some(0.0), Some(SortByFinal), Some(""))) == DefaultFilters
  {
  }

  lemma MergeLocationIdempotent(l: LocationSelection, p: LocationPatch)
    ensures MergeLocation(MergeLocation(l, p), p) == MergeLocation(l, p)
    ensures MergeLocation(l, LocationPatch(None, None, None)) == l
  {
  }

  class CommodityStore {
    var commodities: seq<CommodityWithAnalysis>
    var selectedCommodity: Option<CommodityWithAnalysis>
    var location: LocationSelection
    var filters: CommodityFilters
    var isLoading: bool

    /** The initial state. */
    constructor ()
      ensures commodities == [] && selectedCommodity == None && location == NoLocation
      ensures filters == DefaultFilters && !isLoading
    {
      commodities := [];
      selectedCommodity := None;
      location := NoLocation;
      filters := DefaultFilters;
      isLoading := false;
    }

    /** `setCommodities`. */
    method SetCommodities(list: seq<CommodityWithAnalysis>)
      modifies this
      ensures commodities == list
      ensures selectedCommodity == old(selectedCommodity) && location == old(location)
      ensures filters == old(filters) && isLoading == old(isLoading)
    {
      commodities := list;
    }

    /** `selectCommodity`: `None` clears the selection. */
    method SelectCommodity(commodity: Option<CommodityWithAnalysis>)
      modifies this
      ensures selectedCommodity == commodity
      ensures commodities == old(commodities) && location == old(location)
      ensures filters == old(filters) && isLoading == old(isLoading)
    {
      selectedCommodity := commodity;
    }

    /** `setLocation`: overwrites only the supplied levels. */
    method SetLocation(patch: LocationPatch)
      modifies this
      ensures location == MergeLocation(old(location), patch)
      ensures commodities == old(commodities) && selectedCommodity == old(selectedCommodity)
      ensures filters == old(filters) && isLoading == old(isLoading)
    {
      location := MergeLocation(location, patch);
    }

    /** `setFilters`: overwrites only the supplied fields. */
    method SetFilters(patch: FiltersPatch)
      modifies this
      ensures filters == MergeFilters(old(filters), patch)
      ensures commodities == old(commodities) && selectedCommodity == old(selectedCommodity)
      ensures location == old(location) && isLoading == old(isLoading)
    {
      filters := MergeFilters(filters, patch);
    }

    /** `resetFilters`. */
    method ResetFilters()
      modifies this
      ensures filters == DefaultFilters
      ensures commodities == old(commodities) && selectedCommodity == old(selectedCommodity)
      ensures location == old(location) && isLoading == old(isLoading)
    {
      filters := DefaultFilters;
    }

    /** `setLoading`. */
    method SetLoading(loading: bool)
      modifies this
      ensures isLoading == loading
      ensures commodities == old(commodities) && selectedCommodity == old(selectedCommodity)
      ensures location == old(location) && filters == old(filters)
    {
      isLoading := loading;
    }
  }

  /** `needle` occurs in `haystack` starting at index `i`. */
  predicate OccursAt(haystack: string, needle: string, i: int)
  {
    0 <= i && i + |needle| <= |haystack| && haystack[i..i + |needle|] == needle
  }

  /** `haystack.includes(needle)`. */
  predicate Contains(haystack: string, needle: string)
  {
    exists i :: 0 <= i <= |haystack| - |needle| && OccursAt(haystack, needle, i)
  }

  function CategoryPasses(f: CommodityFilters): CommodityWithAnalysis -> bool
  {
    (c: CommodityWithAnalysis) => f.category == All || c.commodity.category == f.category.category
  }

  function RcaPasses(f: CommodityFilters): CommodityWithAnalysis -> bool
  {
    (c: CommodityWithAnalysis) => f.minRca <= 0.0 || c.commodity.rcaData.rcaScore >= f.minRca
  }

  /** The name filter; `lower` is the runtime's `toLowerCase`. */
  function NamePasses(f: CommodityFilters, lower: string -> string): CommodityWithAnalysis -> bool
  {
    (c: CommodityWithAnalysis) => f.searchQuery == "" || Contains(lower(c.commodity.name), lower(f.searchQuery))
  }

  /** A commodity survives the active filters: a category other than `All`,
      a positive minimum RCA and a non-empty search query. */
  function Passes(f: CommodityFilters, lower: string -> string): CommodityWithAnalysis -> bool
  {
    (c: CommodityWithAnalysis) => CategoryPasses(f)(c) && RcaPasses(f)(c) && NamePasses(f, lower)(c)
  }

  /** The sort of the view; `collationKey` orders names as `localeCompare` does. */
  function SortKey(sortBy: SortBy, collationKey: string -> real): CommodityWithAnalysis -> real
  {
    match sortBy
    case SortByRca => KeyOf(ByRca)
    case SortByProductivity => KeyOf(ByProductivity)
    case SortByFinal => KeyOf(ByFinal)
    case SortByName => (c: CommodityWithAnalysis) => -collationKey(c.commodity.name)
  }

  /** The view `getFilteredCommodities` computes. */
  function FilteredView(commodities: seq<CommodityWithAnalysis>, f: CommodityFilters,
                        lower: string -> string, collationKey: string -> real): (view: seq<CommodityWithAnalysis>)
    ensures multiset(view) == multiset(Filter(commodities, Passes(f, lower)))
    ensures SortedDesc(view, SortKey(f.sortBy, collationKey))
    ensures forall i :: 0 <= i < |view| ==> Passes(f, lower)(view[i])
  {
    var survivors := Filter(commodities, Passes(f, lower));
    SortDescSorted(survivors, SortKey(f.sortBy, collationKey));
    var view := SortDesc(survivors, SortKey(f.sortBy, collationKey));
    SortDescKeeps(survivors, SortKey(f.sortBy, collationKey), Passes(f, lower));
    view
  }

  /** A commodity is in the view exactly when it is in the store and passes
      every active filter. */
  lemma FilteredViewExact(commodities: seq<CommodityWithAnalysis>, f: CommodityFilters,
                          lower: string -> string, collationKey: string -> real, c: CommodityWithAnalysis)
    ensures c in FilteredView(commodities, f, lower, collationKey) <==>
      c in commodities && Passes(f, lower)(c)
  {
    var view := FilteredView(commodities, f, lower, collationKey);
    assert c in view <==> c in multiset(view);
    FilterContains(commodities, Passes(f, lower), c);
  }

  /** An empty search query filters by category and RCA only. */
  lemma EmptyQueryKeepsAllNames(f: CommodityFilters, lower: string -> string, c: CommodityWithAnalysis)
    requires f.searchQuery == ""
    ensures Passes(f, lower)(c) <==> CategoryPasses(f)(c) && RcaPasses(f)(c)
  {
  }

  /** With the default filters nothing is dropped: the view is the store's
      list ranked by final score, as `rankCommodities` ranks it. */
  lemma DefaultViewIsRanking(commodities: seq<CommodityWithAnalysis>, lower: string -> string, collationKey: string -> real)
    ensures FilteredView(commodities, DefaultFilters, lower, collationKey) == RankCommodities(commodities, ByFinal)
  {
    forall i | 0 <= i < |commodities| ensures Passes(DefaultFilters, lower)(commodities[i]) {
      var c := commodities[i];
      assert CategoryPasses(DefaultFilters)(c) && RcaPasses(DefaultFilters)(c);
      assert NamePasses(DefaultFilters, lower)(c);
    }
    FilterKeepsAll(commodities, Passes(DefaultFilters, lower));
  }

  /** Equal keys keep the store's order. */
  lemma FilteredViewStable(commodities: seq<CommodityWithAnalysis>, f: CommodityFilters,
                           lower: string -> string, collationKey: string -> real, k: real)
    ensures SameKey(FilteredView(commodities, f, lower, collationKey), SortKey(f.sortBy, collationKey), k)
         == SameKey(Filter(commodities, Passes(f, lower)), SortKey(f.sortBy, collationKey), k)
  {
    SortDescStable(Filter(commodities, Passes(f, lower)), SortKey(f.sortBy, collationKey), k);
  }

  /** `getFilteredCommodities`: reassigns a copy through the active filters
      in turn, then sorts it. The store itself is only read. */
  method GetFilteredCommodities(state: CommodityStore, lower: string -> string, collationKey: string -> real)
    returns (filtered: seq<CommodityWithAnalysis>)
    ensures filtered == FilteredView(state.commodities, state.filters, lower, collationKey)
  {
    var f := state.filters;
    var all := state.commodities;
    filtered := all;
    if f.category != All {
      filtered := Filter(filtered, CategoryPasses(f));
    } else {
      FilterKeepsAll(all, CategoryPasses(f));
    }
    assert filtered == Filter(all, CategoryPasses(f));
    var catRca := (c: CommodityWithAnalysis) => CategoryPasses(f)(c) && RcaPasses(f)(c);
    if f.minRca > 0.0 {
      filtered := Filter(filtered, RcaPasses(f));
    } else {
      FilterKeepsAll(filtered, RcaPasses(f));
    }
    FilterThen(all, CategoryPasses(f), RcaPasses(f), catRca);
    assert filtered == Filter(all, catRca);
    if f.searchQuery != "" {
      var query := lower(f.searchQuery);
      filtered := Filter(filtered, (c: CommodityWithAnalysis) => Contains(lower(c.commodity.name), query));
      assert Filter(Filter(all, catRca), NamePasses(f, lower)) == filtered by {
        FilterSameOn(Filter(all, catRca), NamePasses(f, lower),
          (c: CommodityWithAnalysis) => Contains(lower(c.commodity.name), query));
      }
    } else {
      FilterKeepsAll(filtered, NamePasses(f, lower));
    }
    FilterThen(all, catRca, NamePasses(f, lower), Passes(f, lower));
    match f.sortBy {
      case SortByRca => filtered := SortDesc(filtered, KeyOf(ByRca));
      case SortByProductivity => filtered := SortDesc(filtered, KeyOf(ByProductivity));
      case SortByName => filtered := SortDesc(filtered, (c: CommodityWithAnalysis) => -collationKey(c.commodity.name));
      case SortByFinal => filtered := SortDesc(filtered, KeyOf(ByFinal));
    }
  }
}
