/** The violations filter bar (src/components/violations/ViolationsFilterControls.tsx):
    the filter record, the partial updates the bar sends to its parent, and
    the active-filter count behind the "Clear (n)" button. */
module ViolationsFilterControls {

  import opened Wrappers
  import opened Seqs
  import opened ToggleList

  /** The default date range, which does not count as an active filter. */
  const DefaultDateRange: string := "Last 30d"

  datatype FilterState = FilterState(
    dateRange: string,
    marketplaces: seq<string>,
    brands: seq<string>,
    severities: seq<string>,
    statuses: seq<string>,
    search: string)

  /** A `Partial<FilterState>`: `None` marks a key the update leaves out. */
  datatype FilterPatch = FilterPatch(
    dateRange: Option<string>,
    marketplaces: Option<seq<string>>,
    brands: Option<seq<string>>,
    severities: Option<seq<string>>,
    statuses: Option<seq<string>>,
    search: Option<string>)

  const NoChange := FilterPatch(None, None, None, None, None, None)

  /** The state the violations page starts with, and the one "Clear" restores. */
  const DefaultFilters := FilterState(DefaultDateRange, [], [], [], [], "")

  /** `{ ...prev, ...patch }`: a key present in the patch overrides, every
      other key keeps its previous value. */
  function Merge(prev: FilterState, patch: FilterPatch): (r: FilterState)
    ensures patch == NoChange ==> r == prev
    ensures patch.search.Some? ==> r.search == patch.search.value
    ensures patch.search.None? ==> r.search == prev.search
    ensures patch.dateRange.Some? ==> r.dateRange == patch.dateRange.value
    ensures patch.dateRange.None? ==> r.dateRange == prev.dateRange
    ensures forall k :: PatchOf(patch, k).Some? ==> ListOf(r, k) == PatchOf(patch, k).value
    ensures forall k :: PatchOf(patch, k).None? ==> ListOf(r, k) == ListOf(prev, k)
  {
    FilterState(
      if patch.dateRange.Some? then patch.dateRange.value else prev.dateRange,
      if patch.marketplaces.Some? then patch.marketplaces.value else prev.marketplaces,
      if patch.brands.Some? then patch.brands.value else prev.brands,
      if patch.severities.Some? then patch.severities.value else prev.severities,
      if patch.statuses.Some? then patch.statuses.value else prev.statuses,
      if patch.search.Some? then patch.search.value else prev.search)
  }

  /** Applying the same update twice is applying it once. */
  lemma MergeIdempotent(prev: FilterState, patch: FilterPatch)
    ensures Merge(Merge(prev, patch), patch) == Merge(prev, patch)
  {
  }

  /** The four list-valued keys the bar toggles values in. */
  datatype ListKey = Marketplaces | Brands | Severities | Statuses

  function ListOf(f: FilterState, key: ListKey): seq<string>
  {
    match key
    case Marketplaces => f.marketplaces
    case Brands => f.brands
    case Severities => f.severities
    case Statuses => f.statuses
  }

  /** What an update says about one list key. */
  function PatchOf(patch: FilterPatch, key: ListKey): Option<seq<string>>
  {
    match key
    case Marketplaces => patch.marketplaces
    case Brands => patch.brands
    case Severities => patch.severities
    case Statuses => patch.statuses
  }

  /** `handleSearchChange`: an update holding only the search text. */
  function SearchChange(value: string): (patch: FilterPatch)
    ensures patch.search == Some(value)
    ensures patch.(search := None) == NoChange
    ensures forall prev :: Merge(prev, patch) == prev.(search := value)
  {
    NoChange.(search := Some(value))
  }

  /** `handleDateRangeChange`: an update holding only the date range. */
  function DateRangeChange(value: string): (patch: FilterPatch)
    ensures patch.dateRange == Some(value)
    ensures patch.(dateRange := None) == NoChange
  {
    NoChange.(dateRange := Some(value))
  }

  /** An update holding only `key`, set to `xs`. */
  function ListPatch(key: ListKey, xs: seq<string>): (patch: FilterPatch)
    ensures forall prev: FilterState, k :: ListOf(Merge(prev, patch), k) == if k == key then xs else ListOf(prev, k)
    ensures forall prev: FilterState :: Merge(prev, patch).dateRange == prev.dateRange
    ensures forall prev: FilterState :: Merge(prev, patch).search == prev.search
  {
    match key
    case Marketplaces => NoChange.(marketplaces := Some(xs))
    case Brands => NoChange.(brands := Some(xs))
    case Severities => NoChange.(severities := Some(xs))
    case Statuses => NoChange.(statuses := Some(xs))
  }

  /** `toggleArrayFilter`: an update holding only the toggled key, whose list
      loses `value` when it held it and gains it at the end otherwise. */
  function ToggleArrayFilter(filters: FilterState, key: ListKey, value: string): (patch: FilterPatch)
    ensures ListOf(Merge(filters, patch), key) == Toggle(ListOf(filters, key), value)
    ensures value in ListOf(Merge(filters, patch), key) <==> value !in ListOf(filters, key)
    ensures value !in ListOf(filters, key) ==> ListOf(Merge(filters, patch), key) == ListOf(filters, key) + [value]
    ensures forall k :: k != key ==> ListOf(Merge(filters, patch), k) == ListOf(filters, k)
    ensures Merge(filters, patch).dateRange == filters.dateRange && Merge(filters, patch).search == filters.search
  {
    ListPatch(key, Toggle(ListOf(filters, key), value))
  }

  /** `clearFilters`: an update naming every key, back to the defaults. */
  function ClearFilters(): (patch: FilterPatch)
    ensures forall prev :: Merge(prev, patch) == DefaultFilters
  {
    FilterPatch(Some(DefaultDateRange), Some([]), Some([]), Some([]), Some([]), Some(""))
  }

  /** The number shown on the "Clear" button: one per selected list value,
      one for a non-empty search and one for a non-default date range. */
  function ActiveFilterCount(f: FilterState): nat
  {
    |f.marketplaces| + |f.brands| + |f.severities| + |f.statuses| +
    (if f.search != "" then 1 else 0) +
    (if f.dateRange != DefaultDateRange then 1 else 0)
  }

  /** The Clear button and the active-filter chips are shown (lines 171 and
      184) exactly when some filter differs from the defaults. */
  lemma ActiveFilterCountZero(f: FilterState)
    ensures ActiveFilterCount(f) == 0 <==> f == DefaultFilters
  {
    if ActiveFilterCount(f) == 0 {
      assert |f.marketplaces| == 0 && |f.brands| == 0 && |f.severities| == 0 && |f.statuses| == 0;
    }
  }

  /** Toggling a value on adds one to the count; toggling a value off removes
      one per occurrence (one when the list holds no duplicates). */
  lemma {:induction false} ToggleCount(filters: FilterState, key: ListKey, value: string)
    ensures var after := Merge(filters, ToggleArrayFilter(filters, key, value));
      if value in ListOf(filters, key)
      then ActiveFilterCount(after) == ActiveFilterCount(filters) - Count(ListOf(filters, key), value)
      else ActiveFilterCount(after) == ActiveFilterCount(filters) + 1
  {
    var after := Merge(filters, ToggleArrayFilter(filters, key, value));
    var t := Toggle(ListOf(filters, key), value);
    match key
    case Marketplaces => assert after == filters.(marketplaces := t);
    case Brands => assert after == filters.(brands := t);
    case Severities => assert after == filters.(severities := t);
    case Statuses => assert after == filters.(statuses := t);
  }

  /** Clearing resets the count to zero from any state. */
  lemma ClearResetsCount(prev: FilterState)
    ensures ActiveFilterCount(Merge(prev, ClearFilters())) == 0
  {
  }
}
