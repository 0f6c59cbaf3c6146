/**
 * The listing API (`backend/routes/businesses.js`) without its HTTP wiring:
 * the filter chain and rating sort of `GET /`, the lookup of `GET /:id`, and
 * the distinct category and service lists of the two `meta` endpoints. The
 * loaded list of businesses is a parameter.
 */
module BusinessesRoute {
  import opened Wrappers
  import opened JsString
  import opened Types
  import opened Seqs
  import opened Sorting

  /** The query string of `GET /`: each parameter absent or a string. */
  datatype ListQuery = ListQuery(
    category: Option<string>,
    minPrice: Option<string>,
    maxPrice: Option<string>,
    search: Option<string>,
    services: Option<string>,
    vibe: Option<string>)

  /** JavaScript truthiness of a query parameter: present and not empty. */
  predicate Given(p: Option<string>) {
    p.Some? && p.value != ""
  }

  /** One stage of the filter chain. A price bound of `None` is `NaN`. */
  datatype Criterion =
    | CategoryIs(category: string)
    | PriceAtLeast(lowest: Option<int>)
    | PriceAtMost(highest: Option<int>)
    | OffersAnyOf(wanted: seq<string>)
    | VibeIncludes(vibe: string)
    | MentionsTerm(term: string)

  /** What each stage's `filter` callback returns for a business. */
  predicate Passes(c: Criterion, b: Business) {
    match c
    case CategoryIs(category) => Lower(b.category) == Lower(category)
    // Every comparison with NaN is false.
    case PriceAtLeast(lowest) => lowest.Some? && b.price >= lowest.value
    case PriceAtMost(highest) => highest.Some? && b.price <= highest.value
    case OffersAnyOf(wanted) => exists i :: 0 <= i < |wanted| && SomeServiceContains(b, Lower(wanted[i]))
    case VibeIncludes(vibe) => Contains(Lower(b.vibe), Lower(vibe))
    case MentionsTerm(term) => Mentions(b, term)
  }

  function Test(c: Criterion): Business -> bool {
    b => Passes(c, b)
  }

  predicate PassesAll(criteria: seq<Criterion>, b: Business) {
    forall i :: 0 <= i < |criteria| ==> Passes(criteria[i], b)
  }

  function TestAll(criteria: seq<Criterion>): Business -> bool {
    b => PassesAll(criteria, b)
  }

  /**
   * `services.split(',').map(s => s.trim())`: one name per comma-separated
   * piece, each already trimmed and free of commas.
   */
  function ServicesList(services: string): (r: seq<string>)
    ensures |r| == |Split(services, ',')|
    ensures forall i :: 0 <= i < |r| ==> r[i] == Trim(Split(services, ',')[i])
    ensures forall name :: name in r ==> ',' !in name && Trim(name) == name
  {
    var parts := Split(services, ',');
    TrimmedPiecesClean(parts);
    seq(|parts|, i requires 0 <= i < |parts| => Trim(parts[i]))
  }

  /** The trimmed pieces of a split hold no comma and have nothing left to trim. */
  lemma TrimmedPiecesClean(parts: seq<string>)
    requires forall p :: p in parts ==> ',' !in p
    ensures forall i :: 0 <= i < |parts| ==> ',' !in Trim(parts[i]) && Trim(Trim(parts[i])) == Trim(parts[i])
  {
    forall i | 0 <= i < |parts| ensures ',' !in Trim(parts[i]) && Trim(Trim(parts[i])) == Trim(parts[i]) {
      assert parts[i] in parts;
      TrimKeepsAbsent(parts[i], ',');
      TrimIdempotent(parts[i]);
    }
  }

  /** A stage switched on by `on`. */
  function StageIf(on: bool, c: Criterion): seq<Criterion> {
    if on then [c] else []
  }

  /** The category stage, if any: `all` means no stage. */
  function CategoryStage(q: ListQuery): seq<Criterion> {
    StageIf(Given(q.category) && q.category.value != "all", CategoryIs(q.category.GetOr("")))
  }

  /** The lower price bound, if any. */
  function MinPriceStage(q: ListQuery): seq<Criterion> {
    StageIf(Given(q.minPrice), PriceAtLeast(ParseInt(q.minPrice.GetOr(""))))
  }

  /** The upper price bound, if any. */
  function MaxPriceStage(q: ListQuery): seq<Criterion> {
    StageIf(Given(q.maxPrice), PriceAtMost(ParseInt(q.maxPrice.GetOr(""))))
  }

  /** The services stage, if any. */
  function ServicesStage(q: ListQuery): seq<Criterion> {
    StageIf(Given(q.services), OffersAnyOf(ServicesList(q.services.GetOr(""))))
  }

  /** The vibe stage, if any: `all` means no stage. */
  function VibeStage(q: ListQuery): seq<Criterion> {
    StageIf(Given(q.vibe) && q.vibe.value != "all", VibeIncludes(q.vibe.GetOr("")))
  }

  /** The search stage, if any, on the lower-cased term. */
  function SearchStage(q: ListQuery): seq<Criterion> {
    StageIf(Given(q.search), MentionsTerm(Lower(q.search.GetOr(""))))
  }

  /** The stages a query switches on, in the order the handler applies them. */
  function ActiveCriteria(q: ListQuery): seq<Criterion> {
    CategoryStage(q) + MinPriceStage(q) + MaxPriceStage(q) + ServicesStage(q) + VibeStage(q) + SearchStage(q)
  }

  /** The comparator `(a, b) => b.rating - a.rating`: higher rating first. */
  function HigherRatedFirst(a: Business, b: Business): bool {
    a.rating >= b.rating
  }

  lemma HigherRatedFirstIsTotalPreorder()
    ensures TotalPreorder(HigherRatedFirst)
  {
  }

  /** The businesses that pass every active stage, sorted by rating, highest first. */
  function Listing(businesses: seq<Business>, q: ListQuery): (r: seq<Business>)
    ensures multiset(r) == multiset(Filter(businesses, TestAll(ActiveCriteria(q))))
    ensures forall i, j :: 0 <= i < j < |r| ==> r[i].rating >= r[j].rating
  {
    var r := SortBy(Filter(businesses, TestAll(ActiveCriteria(q))), HigherRatedFirst);
    HigherRatedFirstIsTotalPreorder();
    SortBySorted(Filter(businesses, TestAll(ActiveCriteria(q))), HigherRatedFirst);
    r
  }

  /** The JSON body of a successful `GET /`. */
  datatype ListResponse = ListResponse(data: seq<Business>, count: int, total: int)

  /** Applying a stage when `on` holds is filtering by the stages so far and it. */
  lemma AddStageIf(businesses: seq<Business>, applied: seq<Criterion>, on: bool, c: Criterion)
    ensures (if on then Filter(Filter(businesses, TestAll(applied)), Test(c)) else Filter(businesses, TestAll(applied)))
         == Filter(businesses, TestAll(applied + StageIf(on, c)))
  {
    if on {
      AddStage(businesses, applied, c);
    } else {
      assert applied + [] == applied;
    }
  }

  /** Applying one more stage is filtering by one more criterion. */
  lemma AddStage(businesses: seq<Business>, applied: seq<Criterion>, c: Criterion)
    ensures Filter(Filter(businesses, TestAll(applied)), Test(c)) == Filter(businesses, TestAll(applied + [c]))
  {
    forall b ensures TestAll(applied + [c])(b) == (TestAll(applied)(b) && Test(c)(b)) {
      if PassesAll(applied, b) && Passes(c, b) {
        assert forall i :: 0 <= i < |applied| + 1 ==> (applied + [c])[i] == if i < |applied| then applied[i] else c;
      }
      if PassesAll(applied + [c], b) {
        assert Passes((applied + [c])[|applied|], b);
        forall i | 0 <= i < |applied| ensures Passes(applied[i], b) {
          assert (applied + [c])[i] == applied[i];
        }
      }
    }
    FilterFilter(businesses, TestAll(applied), Test(c), TestAll(applied + [c]));
  }

  /**
   * One `if (param) { filteredBusinesses = filteredBusinesses.filter(...) }`
   * step: when the stage is on, keep the businesses that pass it.
   */
  method NarrowIf(filtered: seq<Business>, on: bool, c: Criterion,
                  ghost businesses: seq<Business>, ghost applied: seq<Criterion>)
    returns (next: seq<Business>)
    requires filtered == Filter(businesses, TestAll(applied))
    ensures next == Filter(businesses, TestAll(applied + StageIf(on, c)))
  {
    next := filtered;
    if on {
      next := Filter(filtered, Test(c));
    }
    AddStageIf(businesses, applied, on, c);
  }

  /**
   * `GET /`: copy the list, narrow it stage by stage for each parameter the
   * query gives, then sort it by rating, highest first. `count` is the number
   * of matches and `total` the size of the whole list.
   */
  method ListBusinesses(businesses: seq<Business>, q: ListQuery) returns (response: ListResponse)
    ensures response.data == Listing(businesses, q)
    ensures response.count == |response.data| && response.total == |businesses|
  {
    FilterAllPass(businesses, TestAll([]));
    var filtered := NarrowIf(businesses, Given(q.category) && q.category.value != "all",
                             CategoryIs(q.category.GetOr("")), businesses, []);
    assert [] + CategoryStage(q) == CategoryStage(q);
    filtered := NarrowIf(filtered, Given(q.minPrice), PriceAtLeast(ParseInt(q.minPrice.GetOr(""))),
                         businesses, CategoryStage(q));
    filtered := NarrowIf(filtered, Given(q.maxPrice), PriceAtMost(ParseInt(q.maxPrice.GetOr(""))),
                         businesses, CategoryStage(q) + MinPriceStage(q));
    filtered := NarrowIf(filtered, Given(q.services), OffersAnyOf(ServicesList(q.services.GetOr(""))),
                         businesses, CategoryStage(q) + MinPriceStage(q) + MaxPriceStage(q));
    filtered := NarrowIf(filtered, Given(q.vibe) && q.vibe.value != "all", VibeIncludes(q.vibe.GetOr("")),
                         businesses, CategoryStage(q) + MinPriceStage(q) + MaxPriceStage(q) + ServicesStage(q));
    filtered := NarrowIf(filtered, Given(q.search), MentionsTerm(Lower(q.search.GetOr(""))),
                         businesses, CategoryStage(q) + MinPriceStage(q) + MaxPriceStage(q) + ServicesStage(q) + VibeStage(q));

    filtered := SortBy(filtered, HigherRatedFirst);
    response := ListResponse(filtered, |filtered|, |businesses|);
  }

  /** The category parameter, unless absent or `all`, equals the category ignoring case. */
  predicate CategoryOk(q: ListQuery, b: Business) {
    Given(q.category) && q.category.value != "all" ==> Lower(b.category) == Lower(q.category.value)
  }

  /** The `minPrice` parameter, if given, parses to a bound the price reaches. */
  predicate MinPriceOk(q: ListQuery, b: Business) {
    Given(q.minPrice) ==> ParseInt(q.minPrice.value).Some? && b.price >= ParseInt(q.minPrice.value).value
  }

  /** The `maxPrice` parameter, if given, parses to a bound the price does not exceed. */
  predicate MaxPriceOk(q: ListQuery, b: Business) {
    Given(q.maxPrice) ==> ParseInt(q.maxPrice.value).Some? && b.price <= ParseInt(q.maxPrice.value).value
  }

  /** Some listed service, lower-cased, occurs in one of the business's services, lower-cased. */
  predicate ServicesOk(q: ListQuery, b: Business) {
    Given(q.services) ==>
      var wanted := ServicesList(q.services.value);
      exists i :: 0 <= i < |wanted| && SomeServiceContains(b, Lower(wanted[i]))
  }

  /** The vibe parameter, unless absent or `all`, occurs in the vibe ignoring case. */
  predicate VibeOk(q: ListQuery, b: Business) {
    Given(q.vibe) && q.vibe.value != "all" ==> Contains(Lower(b.vibe), Lower(q.vibe.value))
  }

  /** The search parameter, if given, lower-cased, occurs in one of the searched fields. */
  predicate SearchOk(q: ListQuery, b: Business) {
    Given(q.search) ==> Mentions(b, Lower(q.search.value))
  }

  /** Passing the stages of `a + c` is passing those of `a` and those of `c`. */
  lemma PassesAllAppend(a: seq<Criterion>, c: seq<Criterion>, b: Business)
    ensures PassesAll(a + c, b) <==> PassesAll(a, b) && PassesAll(c, b)
  {
    if PassesAll(a + c, b) {
      forall i | 0 <= i < |c| ensures Passes(c[i], b) {
        assert (a + c)[|a| + i] == c[i];
      }
      forall i | 0 <= i < |a| ensures Passes(a[i], b) {
        assert (a + c)[i] == a[i];
      }
    }
  }

  /** A switched-off stage passes everything; a switched-on one is its criterion. */
  lemma PassesStageIf(on: bool, c: Criterion, b: Business)
    ensures PassesAll(StageIf(on, c), b) <==> (on ==> Passes(c, b))
  {
    if on {
      assert StageIf(on, c)[0] == c;
    }
  }

  /** Passing the stages a query switches on is meeting each parameter's condition. */
  lemma PassesActiveCriteria(q: ListQuery, b: Business)
    ensures PassesAll(ActiveCriteria(q), b) <==>
      CategoryOk(q, b) && MinPriceOk(q, b) && MaxPriceOk(q, b)
      && ServicesOk(q, b) && VibeOk(q, b) && SearchOk(q, b)
  {
    var s1 := CategoryStage(q);
    var s2 := s1 + MinPriceStage(q);
    var s3 := s2 + MaxPriceStage(q);
    var s4 := s3 + ServicesStage(q);
    var s5 := s4 + VibeStage(q);
    PassesAllAppend(s1, MinPriceStage(q), b);
    PassesAllAppend(s2, MaxPriceStage(q), b);
    PassesAllAppend(s3, ServicesStage(q), b);
    PassesAllAppend(s4, VibeStage(q), b);
    PassesAllAppend(s5, SearchStage(q), b);
    CategoryStageMeaning(q, b);
    PriceStagesMeaning(q, b);
    TextStagesMeaning(q, b);
  }

  /** The category stage, if on, keeps exactly the businesses meeting the category condition. */
  lemma CategoryStageMeaning(q: ListQuery, b: Business)
    ensures PassesAll(CategoryStage(q), b) <==> CategoryOk(q, b)
  {
    PassesStageIf(Given(q.category) && q.category.value != "all", CategoryIs(q.category.GetOr("")), b);
  }

  /** The price stages, if on, keep exactly the businesses within the parsed bounds. */
  lemma PriceStagesMeaning(q: ListQuery, b: Business)
    ensures PassesAll(MinPriceStage(q), b) <==> MinPriceOk(q, b)
    ensures PassesAll(MaxPriceStage(q), b) <==> MaxPriceOk(q, b)
  {
    PassesStageIf(Given(q.minPrice), PriceAtLeast(ParseInt(q.minPrice.GetOr(""))), b);
    PassesStageIf(Given(q.maxPrice), PriceAtMost(ParseInt(q.maxPrice.GetOr(""))), b);
  }

  /** The services, vibe and search stages, if on, keep exactly the businesses meeting their conditions. */
  lemma TextStagesMeaning(q: ListQuery, b: Business)
    ensures PassesAll(ServicesStage(q), b) <==> ServicesOk(q, b)
    ensures PassesAll(VibeStage(q), b) <==> VibeOk(q, b)
    ensures PassesAll(SearchStage(q), b) <==> SearchOk(q, b)
  {
    PassesStageIf(Given(q.services), OffersAnyOf(ServicesList(q.services.GetOr(""))), b);
    PassesStageIf(Given(q.vibe) && q.vibe.value != "all", VibeIncludes(q.vibe.GetOr("")), b);
    PassesStageIf(Given(q.search), MentionsTerm(Lower(q.search.GetOr(""))), b);
  }

  /** A business is listed exactly when it is in the list and meets every given parameter. */
  lemma ListingMembership(businesses: seq<Business>, q: ListQuery, b: Business)
    ensures b in Listing(businesses, q) <==>
      b in businesses && CategoryOk(q, b) && MinPriceOk(q, b) && MaxPriceOk(q, b)
      && ServicesOk(q, b) && VibeOk(q, b) && SearchOk(q, b)
  {
    var all := Filter(businesses, TestAll(ActiveCriteria(q)));
    assert multiset(Listing(businesses, q))[b] == multiset(all)[b];
    assert b in Listing(businesses, q) <==> b in all;
    PassesActiveCriteria(q, b);
  }

  /** A price bound that `parseInt` reads as `NaN` rejects every business. */
  lemma UnparsableBoundListsNothing(businesses: seq<Business>, q: ListQuery)
    requires (Given(q.minPrice) && ParseInt(q.minPrice.value).None?)
          || (Given(q.maxPrice) && ParseInt(q.maxPrice.value).None?)
    ensures Listing(businesses, q) == []
  {
    if Listing(businesses, q) != [] {
      var b := Listing(businesses, q)[0];
      ListingMembership(businesses, q, b);
    }
  }

  /** A query whose every parameter is missing or empty. */
  predicate NoParameters(q: ListQuery) {
    !Given(q.category) && !Given(q.minPrice) && !Given(q.maxPrice)
    && !Given(q.services) && !Given(q.vibe) && !Given(q.search)
  }

  /**
   * Without parameters (an empty value counts as none) the listing is every
   * business, highest rated first, ties in list order.
   */
  lemma NoParametersListsAll(businesses: seq<Business>, q: ListQuery)
    requires NoParameters(q)
    ensures Listing(businesses, q) == SortBy(businesses, HigherRatedFirst)
  {
    assert ActiveCriteria(q) == [];
    FilterAllPass(businesses, TestAll([]));
  }

  /** Businesses with equal ratings keep their relative order from the list. */
  lemma ListingStable(businesses: seq<Business>, q: ListQuery, k: Business)
    ensures Filter(Listing(businesses, q), TiedWith(k, HigherRatedFirst))
         == Filter(Filter(businesses, TestAll(ActiveCriteria(q))), TiedWith(k, HigherRatedFirst))
  {
    HigherRatedFirstIsTotalPreorder();
    SortByStable(Filter(businesses, TestAll(ActiveCriteria(q))), HigherRatedFirst, k);
  }

  /**
   * A comma-joined list of trimmed service names without commas comes back
   * unchanged from the services parameter.
   */
  lemma ServicesListOfJoin(services: seq<string>)
    requires |services| >= 1
    requires forall i :: 0 <= i < |services| ==> ',' !in services[i] && Trim(services[i]) == services[i]
    ensures ServicesList(Join(services, ',')) == services
  {
    SplitJoin(services, ',');
    var r := ServicesList(Join(services, ','));
    assert |r| == |services|;
    forall i | 0 <= i < |r| ensures r[i] == services[i] {
      assert r[i] == Trim(services[i]);
    }
  }

  /** `businesses.find(b => b.id === id)`; a `NaN` id equals nothing. */
  function FindById(businesses: seq<Business>, id: Option<int>): (r: Option<Business>)
    ensures r.Some? <==> id.Some? && exists i :: 0 <= i < |businesses| && businesses[i].id == id.value
    ensures r.Some? ==> r.value in businesses && r.value.id == id.value
  {
    if id.None? || |businesses| == 0 then None
    else if businesses[0].id == id.value then Some(businesses[0])
    else
      var r := FindById(businesses[1..], id);
      assert forall i :: 1 <= i < |businesses| ==> businesses[i] == businesses[1..][i - 1];
      r
  }

  /** The business found is the first with the id: it comes no later than any match. */
  lemma {:induction false} FindByIdFirst(businesses: seq<Business>, id: int, i: nat)
    requires i < |businesses| && businesses[i].id == id
    ensures FindById(businesses, Some(id)).Some?
    ensures FindById(businesses, Some(id)).value in businesses[..i + 1]
  {
    if businesses[0].id != id {
      var tail := businesses[1..];
      assert tail[i - 1] == businesses[i];
      FindByIdFirst(tail, id, i - 1);
      assert tail[..i] == businesses[1..i + 1];
    }
  }

  /** The JSON body of `GET /:id`: the business, or a 404. */
  datatype ItemResponse = Found(business: Business) | NotFound

  /** `GET /:id`: parse the path parameter and look the business up. */
  function GetBusiness(businesses: seq<Business>, idParam: string): (r: ItemResponse)
    ensures r.Found? <==> exists i :: 0 <= i < |businesses| && Some(businesses[i].id) == ParseInt(idParam)
    ensures r.Found? ==> r.business in businesses && Some(r.business.id) == ParseInt(idParam)
    ensures r.Found? ==> forall i :: 0 <= i < |businesses| && Some(businesses[i].id) == ParseInt(idParam)
                                 ==> r.business in businesses[..i + 1]
  {
    match FindById(businesses, ParseInt(idParam))
    case Some(b) =>
      FindByIdFirstAll(businesses, ParseInt(idParam).value);
      Found(b)
    case None => NotFound
  }

  /** `FindByIdFirst` for every match at once. */
  lemma FindByIdFirstAll(businesses: seq<Business>, id: int)
    ensures forall i :: 0 <= i < |businesses| && businesses[i].id == id
                     ==> FindById(businesses, Some(id)).Some? && FindById(businesses, Some(id)).value in businesses[..i + 1]
  {
    forall i | 0 <= i < |businesses| && businesses[i].id == id
      ensures FindById(businesses, Some(id)).Some? && FindById(businesses, Some(id)).value in businesses[..i + 1]
    {
      FindByIdFirst(businesses, id, i);
    }
  }

  /** With unique ids, looking up a business's id finds that business. */
  lemma FindByOwnId(businesses: seq<Business>, b: Business)
    requires b in businesses
    requires forall i, j :: 0 <= i < j < |businesses| ==> businesses[i].id != businesses[j].id
    ensures FindById(businesses, Some(b.id)) == Some(b)
  {
    var r := FindById(businesses, Some(b.id));
    var k :| 0 <= k < |businesses| && businesses[k] == b;
    var m :| 0 <= m < |businesses| && businesses[m] == r.value;
  }

  /** A business is reached by the decimal form of its id when ids are unique. */
  lemma GetBusinessById(businesses: seq<Business>, b: Business)
    requires b in businesses
    requires forall i, j :: 0 <= i < j < |businesses| ==> businesses[i].id != businesses[j].id
    ensures GetBusiness(businesses, IntToString(b.id)) == Found(b)
  {
    ParseIntOfIntToString(b.id);
    FindByOwnId(businesses, b);
  }

  /** The category of each business, in list order. */
  function CategoryColumn(businesses: seq<Business>): (r: seq<string>)
    ensures |r| == |businesses|
    ensures forall i :: 0 <= i < |r| ==> r[i] == businesses[i].category
  {
    seq(|businesses|, i requires 0 <= i < |businesses| => businesses[i].category)
  }

  /** `businesses.flatMap(b => b.services)`. */
  function AllServices(businesses: seq<Business>): (r: seq<string>)
    ensures forall x :: x in r <==> exists i :: 0 <= i < |businesses| && x in businesses[i].services
  {
    if |businesses| == 0 then []
    else
      var init := businesses[..|businesses| - 1];
      assert forall i :: 0 <= i < |init| ==> init[i] == businesses[i];
      AllServices(init) + businesses[|businesses| - 1].services
  }

  /** `GET /meta/categories`: `[...new Set(businesses.map(b => b.category))]`. */
  function Categories(businesses: seq<Business>): (r: seq<string>)
    ensures NoDuplicates(r)
    ensures forall x :: x in r <==> exists i :: 0 <= i < |businesses| && businesses[i].category == x
  {
    var column := CategoryColumn(businesses);
    assert forall i :: 0 <= i < |businesses| ==> column[i] in column;
    Dedup(column)
  }

  /** `GET /meta/services`: `[...new Set(businesses.flatMap(b => b.services))]`. */
  function Services(businesses: seq<Business>): (r: seq<string>)
    ensures NoDuplicates(r)
    ensures forall x :: x in r <==> exists i :: 0 <= i < |businesses| && x in businesses[i].services
  {
    Dedup(AllServices(businesses))
  }

  /** The distinct categories come in the order of their first appearance in the list. */
  lemma CategoriesInFirstOccurrenceOrder(businesses: seq<Business>, i: nat, j: nat)
    requires i < j < |Categories(businesses)|
    ensures var column := CategoryColumn(businesses);
      var r := Categories(businesses);
      r[i] in column && r[j] in column && FirstIndex(column, r[i]) < FirstIndex(column, r[j])
  {
    DedupFirstOccurrenceOrder(CategoryColumn(businesses), i, j);
  }

  /** The distinct services come in the order of their first appearance in the flattened list. */
  lemma ServicesInFirstOccurrenceOrder(businesses: seq<Business>, i: nat, j: nat)
    requires i < j < |Services(businesses)|
    ensures var all := AllServices(businesses);
      var r := Services(businesses);
      r[i] in all && r[j] in all && FirstIndex(all, r[i]) < FirstIndex(all, r[j])
  {
    DedupFirstOccurrenceOrder(AllServices(businesses), i, j);
  }
}
