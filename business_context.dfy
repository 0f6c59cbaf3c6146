/**
 * The client's listing state (`src/context/BusinessContext.tsx`): the initial
 * filters, the `businessReducer`, the request parameters built from the
 * filters, and `searchBusinesses`. Fetching, the debounce timer and the
 * effects that dispatch are not part of this model.
 */
module BusinessContext {
  import opened Wrappers
  import opened JsString
  import opened Types

  /** `initialFilterState`. */
  function InitialFilters(): FilterState {
    FilterState("all", 0, 100, [], "all", "")
  }

  /** `BusinessState`; an `error` of `null` is `None`. */
  datatype BusinessState = BusinessState(
    businesses: seq<Business>,
    filteredBusinesses: seq<Business>,
    filters: FilterState,
    loading: bool,
    error: Option<string>,
    categories: seq<string>,
    allServices: seq<string>)

  /** `initialState`. */
  function InitialState(): BusinessState {
    BusinessState([], [], InitialFilters(), false, None, [], [])
  }

  /** A `Partial<FilterState>`: each field present with a value, or absent. */
  datatype FilterPatch = FilterPatch(
    category: Option<string>,
    minPrice: Option<int>,
    maxPrice: Option<int>,
    services: Option<seq<string>>,
    vibe: Option<string>,
    search: Option<string>)

  /** The patch with no field. */
  function EmptyPatch(): FilterPatch {
    FilterPatch(None, None, None, None, None, None)
  }

  /** `{ ...filters, ...patch }`: the patch's fields win. */
  function ApplyPatch(f: FilterState, p: FilterPatch): FilterState {
    FilterState(
      p.category.GetOr(f.category),
      p.minPrice.GetOr(f.minPrice),
      p.maxPrice.GetOr(f.maxPrice),
      p.services.GetOr(f.services),
      p.vibe.GetOr(f.vibe),
      p.search.GetOr(f.search))
  }

  /** `BusinessAction`, plus any other `type` the reducer's `default` branch sees. */
  datatype Action =
    | SetLoading(loading: bool)
    | SetError(error: Option<string>)
    | SetBusinesses(businesses: seq<Business>)
    | SetFilteredBusinesses(filtered: seq<Business>)
    | SetFilters(patch: FilterPatch)
    | ResetFilters
    | SetCategories(categories: seq<string>)
    | SetServices(services: seq<string>)
    | Unrecognised(kind: string)

  /** `businessReducer`. */
  function Reduce(state: BusinessState, action: Action): BusinessState {
    match action
    case SetLoading(loading) => state.(loading := loading)
    case SetError(error) => state.(error := error, loading := false)
    case SetBusinesses(businesses) => state.(businesses := businesses, loading := false, error := None)
    case SetFilteredBusinesses(filtered) => state.(filteredBusinesses := filtered)
    case SetFilters(patch) => state.(filters := ApplyPatch(state.filters, patch))
    case ResetFilters => state.(filters := InitialFilters())
    case SetCategories(categories) => state.(categories := categories)
    case SetServices(services) => state.(allServices := services)
    case Unrecognised(_) => state
  }

  /** `setFilters(newFilters)`. */
  function SetFiltersAction(newFilters: FilterPatch): Action {
    SetFilters(newFilters)
  }

  /** `searchBusinesses(query)`: `setFilters({ search: query })`. */
  function SearchBusinessesAction(query: string): Action {
    SetFiltersAction(EmptyPatch().(search := Some(query)))
  }

  /**
   * `SET_FILTERS` overwrites exactly the fields the patch holds; every other
   * filter and every other part of the state stays.
   */
  lemma SetFiltersOverwritesPresentFields(state: BusinessState, patch: FilterPatch)
    ensures var r := Reduce(state, SetFilters(patch));
      && r.(filters := state.filters) == state
      && (patch.category.Some? ==> r.filters.category == patch.category.value)
      && (patch.category.None? ==> r.filters.category == state.filters.category)
      && (patch.minPrice.Some? ==> r.filters.minPrice == patch.minPrice.value)
      && (patch.minPrice.None? ==> r.filters.minPrice == state.filters.minPrice)
      && (patch.maxPrice.Some? ==> r.filters.maxPrice == patch.maxPrice.value)
      && (patch.maxPrice.None? ==> r.filters.maxPrice == state.filters.maxPrice)
      && (patch.services.Some? ==> r.filters.services == patch.services.value)
      && (patch.services.None? ==> r.filters.services == state.filters.services)
      && (patch.vibe.Some? ==> r.filters.vibe == patch.vibe.value)
      && (patch.vibe.None? ==> r.filters.vibe == state.filters.vibe)
      && (patch.search.Some? ==> r.filters.search == patch.search.value)
      && (patch.search.None? ==> r.filters.search == state.filters.search)
  {
  }

  /** An empty patch changes nothing. */
  lemma EmptyPatchIsIdentity(state: BusinessState)
    ensures Reduce(state, SetFilters(EmptyPatch())) == state
  {
  }

  /** Applying a patch twice is applying it once. */
  lemma SetFiltersIdempotent(state: BusinessState, patch: FilterPatch)
    ensures Reduce(Reduce(state, SetFilters(patch)), SetFilters(patch)) == Reduce(state, SetFilters(patch))
  {
  }

  /** `RESET_FILTERS` brings back exactly the initial filters, from any state, and is idempotent. */
  lemma ResetFiltersRestoresInitial(state: BusinessState)
    ensures Reduce(state, ResetFilters).filters == FilterState("all", 0, 100, [], "all", "")
    ensures Reduce(state, ResetFilters).(filters := state.filters) == state
    ensures Reduce(Reduce(state, ResetFilters), ResetFilters) == Reduce(state, ResetFilters)
  {
  }

  /** `SET_ERROR` records the error and stops loading; nothing else changes. */
  lemma SetErrorStopsLoading(state: BusinessState, error: Option<string>)
    ensures var r := Reduce(state, SetError(error));
      r.error == error && !r.loading && r.(error := state.error, loading := state.loading) == state
  {
  }

  /** `SET_BUSINESSES` stores the list, stops loading and clears the error; nothing else changes. */
  lemma SetBusinessesStopsLoading(state: BusinessState, businesses: seq<Business>)
    ensures var r := Reduce(state, SetBusinesses(businesses));
      && r.businesses == businesses && !r.loading && r.error == None
      && r.(businesses := state.businesses, loading := state.loading, error := state.error) == state
  {
  }

  /** Each remaining action changes only the field it names; an unknown one changes nothing. */
  lemma OtherActionsChangeOneField(state: BusinessState, action: Action)
    ensures action.SetLoading? ==> Reduce(state, action) == state.(loading := action.loading)
    ensures action.SetFilteredBusinesses? ==> Reduce(state, action) == state.(filteredBusinesses := action.filtered)
    ensures action.SetCategories? ==> Reduce(state, action) == state.(categories := action.categories)
    ensures action.SetServices? ==> Reduce(state, action) == state.(allServices := action.services)
    ensures action.Unrecognised? ==> Reduce(state, action) == state
  {
  }

  /** `searchBusinesses(q)` replaces the search text and nothing else. */
  lemma SearchBusinessesSetsSearch(state: BusinessState, query: string)
    ensures Reduce(state, SearchBusinessesAction(query)) == state.(filters := state.filters.(search := query))
  {
  }

  /** A value of the request's query string: a string or a number. */
  datatype ParamValue = Str(text: string) | Num(number: int)

  /** The names the request may carry. */
  const ParamNames: set<string> := {"category", "minPrice", "maxPrice", "services", "vibe", "search"}

  /** `m` with `key` set to `v` when `on`. */
  function PutIf(m: map<string, ParamValue>, on: bool, key: string, v: ParamValue): map<string, ParamValue> {
    if on then m[key := v] else m
  }

  /**
   * The request parameters of the filter effect: each filter that differs
   * from its initial value, and nothing else.
   */
  function RequestParams(f: FilterState): (m: map<string, ParamValue>)
    ensures m.Keys <= ParamNames
    ensures "category" in m <==> f.category != "all"
    ensures "category" in m ==> m["category"] == Str(f.category)
    ensures "minPrice" in m <==> f.minPrice > 0
    ensures "minPrice" in m ==> m["minPrice"] == Num(f.minPrice)
    ensures "maxPrice" in m <==> f.maxPrice < 100
    ensures "maxPrice" in m ==> m["maxPrice"] == Num(f.maxPrice)
    ensures "services" in m <==> |f.services| > 0
    ensures "services" in m ==> m["services"] == Str(Join(f.services, ','))
    ensures "vibe" in m <==> f.vibe != "all"
    ensures "vibe" in m ==> m["vibe"] == Str(f.vibe)
    ensures "search" in m <==> f.search != ""
    ensures "search" in m ==> m["search"] == Str(f.search)
  {
    var m0: map<string, ParamValue> := map[];
    var m1 := PutIf(m0, f.category != "all", "category", Str(f.category));
    var m2 := PutIf(m1, f.minPrice > 0, "minPrice", Num(f.minPrice));
    var m3 := PutIf(m2, f.maxPrice < 100, "maxPrice", Num(f.maxPrice));
    var m4 := PutIf(m3, |f.services| > 0, "services", Str(Join(f.services, ',')));
    var m5 := PutIf(m4, f.vibe != "all", "vibe", Str(f.vibe));
    PutIf(m5, f.search != "", "search", Str(f.search))
  }

  /** The initial filters ask for no parameter at all. */
  lemma InitialFiltersNoParams()
    ensures RequestParams(InitialFilters()) == map[]
  {
    var m := RequestParams(InitialFilters());
    forall k | k in m.Keys ensures false {
    }
  }

  /** The filter effect's `params` object, filled one field at a time. */
  method BuildParams(filters: FilterState) returns (params: map<string, ParamValue>)
    ensures params == RequestParams(filters)
  {
    params := map[];
    if filters.category != "all" {
      params := params["category" := Str(filters.category)];
    }
    if filters.minPrice > 0 {
      params := params["minPrice" := Num(filters.minPrice)];
    }
    if filters.maxPrice < 100 {
      params := params["maxPrice" := Num(filters.maxPrice)];
    }
    if |filters.services| > 0 {
      params := params["services" := Str(Join(filters.services, ','))];
    }
    if filters.vibe != "all" {
      params := params["vibe" := Str(filters.vibe)];
    }
    if filters.search != "" {
      params := params["search" := Str(filters.search)];
    }
  }
}
