/**
 * The filter panel's state logic (`src/components/FilterPanel.tsx`): the
 * service checkbox toggle, the price change handler and the test for active
 * filters. Each handler's result is the patch it hands to `setFilters`.
 */
module FilterPanel {
  import opened Wrappers
  import opened Types
  import opened Seqs
  import opened BusinessContext

  /** The callback of `filters.services.filter(s => s !== service)`. */
  function IsNot(service: string): string -> bool {
    (s: string) => s != service
  }

  /** The list `handleServiceToggle` builds: every copy removed if present, else appended. */
  function ToggleService(services: seq<string>, service: string): seq<string> {
    if service in services then Filter(services, IsNot(service)) else services + [service]
  }

  /** `handleServiceToggle(service)`: the patch holding only the new service list. */
  function HandleServiceToggle(filters: FilterState, service: string): FilterPatch {
    EmptyPatch().(services := Some(ToggleService(filters.services, service)))
  }

  /** A toggle flips the service's membership. */
  lemma ToggleServiceFlips(services: seq<string>, service: string)
    ensures service in ToggleService(services, service) <==> service !in services
  {
    if service !in services {
      assert (services + [service])[|services|] == service;
    }
  }

  /** A toggle leaves the other services, in their order and multiplicity. */
  lemma ToggleServiceKeepsOthers(services: seq<string>, service: string)
    ensures Filter(ToggleService(services, service), IsNot(service)) == Filter(services, IsNot(service))
  {
    if service in services {
      forall x | x in Filter(services, IsNot(service)) ensures IsNot(service)(x) {
      }
      FilterAllPass(Filter(services, IsNot(service)), IsNot(service));
    } else {
      FilterAppend(services, [service], IsNot(service));
      assert Filter([service], IsNot(service)) == [];
    }
  }

  /** Toggling an unselected service twice gives the list back. */
  lemma ToggleServiceTwiceAbsent(services: seq<string>, service: string)
    requires service !in services
    ensures ToggleService(ToggleService(services, service), service) == services
  {
    var added := services + [service];
    assert service in added by {
      assert added[|services|] == service;
    }
    FilterAppend(services, [service], IsNot(service));
    assert Filter([service], IsNot(service)) == [];
    FilterAllPass(services, IsNot(service));
  }

  /**
   * Toggling a selected service twice does not give the list back in general:
   * the service comes back at the end.
   */
  lemma ToggleServiceTwicePresent(services: seq<string>, service: string)
    requires service in services
    ensures ToggleService(ToggleService(services, service), service) == Filter(services, IsNot(service)) + [service]
  {
    var removed := Filter(services, IsNot(service));
    assert service !in removed;
  }

  /** Deselecting a service that is not last moves it to the end. */
  lemma ToggleTwiceReorders()
    ensures ToggleService(ToggleService(["Yoga", "Pilates"], "Yoga"), "Yoga") == ["Pilates", "Yoga"]
  {
    ToggleServiceTwicePresent(["Yoga", "Pilates"], "Yoga");
    assert Filter(["Pilates"], IsNot("Yoga")) == ["Pilates"];
    assert Filter(["Yoga", "Pilates"], IsNot("Yoga")) == Filter(["Pilates"], IsNot("Yoga"));
  }

  /** The price slider being changed. */
  datatype PriceField = MinPrice | MaxPrice

  /** `handlePriceChange(field, value)`: the patch holding only that bound. */
  function HandlePriceChange(field: PriceField, value: int): FilterPatch {
    match field
    case MinPrice => EmptyPatch().(minPrice := Some(value))
    case MaxPrice => EmptyPatch().(maxPrice := Some(value))
  }

  /** A price change sets the named bound and leaves every other filter, with no check of the two bounds' order. */
  lemma PriceChangeSetsOneBound(filters: FilterState, field: PriceField, value: int)
    ensures field == MinPrice ==> ApplyPatch(filters, HandlePriceChange(field, value)) == filters.(minPrice := value)
    ensures field == MaxPrice ==> ApplyPatch(filters, HandlePriceChange(field, value)) == filters.(maxPrice := value)
  {
  }

  /** Nothing stops the lower bound from passing the upper one. */
  lemma BoundsCanCross()
    ensures var f := ApplyPatch(InitialFilters(), HandlePriceChange(MinPrice, 150));
      f.minPrice > f.maxPrice
  {
  }

  /** `hasActiveFilters`: some filter differs from its initial value. */
  predicate HasActiveFilters(filters: FilterState) {
    || filters.category != "all"
    || filters.minPrice > 0
    || filters.maxPrice < 100
    || |filters.services| > 0
    || filters.vibe != "all"
    || filters.search != ""
  }

  /** The reset button shows exactly when the filters put some parameter in the request. */
  lemma ActiveIffParams(filters: FilterState)
    ensures HasActiveFilters(filters) <==> RequestParams(filters) != map[]
  {
    var m := RequestParams(filters);
    if !HasActiveFilters(filters) {
      forall k | k in m ensures false {
      }
    }
  }

  /** The initial filters, and any reset, are not active. */
  lemma ResetIsInactive(state: BusinessState)
    ensures !HasActiveFilters(InitialFilters())
    ensures !HasActiveFilters(Reduce(state, ResetFilters).filters)
  {
  }
}
