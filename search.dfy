/**
 * The client-side search (`src/utils/search.ts`): a keyword search over the
 * listings with price and intensity heuristics, and the search-as-you-type
 * suggestion list.
 */
module Search {
  import opened JsString
  import opened Types
  import opened Seqs

  const PriceKeywords: seq<string> := ["cheap", "affordable", "expensive", "budget", "premium"]
  const IntensityKeywords: seq<string> := ["intense", "hardcore", "challenging", "easy", "gentle"]
  const LocationKeywords: seq<string> := ["near", "in", "at", "around"]
  const ServiceKeywords: seq<string> := ["sauna", "pt", "personal training", "group classes", "classes"]
  const VibeKeywords: seq<string> := ["calm", "peaceful", "intense", "community", "modern", "tech", "flexible"]

  /** `words.some(word => term.includes(word))`. */
  predicate MentionsAny(term: string, words: seq<string>) {
    exists i :: 0 <= i < |words| && Contains(term, words[i])
  }

  /**
   * The intents detected in a search term. Only the price and intensity
   * flags take part in matching; the other three are computed and unused.
   */
  datatype QueryContext = QueryContext(
    isPriceQuery: bool,
    isIntensityQuery: bool,
    isLocationQuery: bool,
    isServicesQuery: bool,
    isVibeQuery: bool)

  function ProcessQuery(term: string): QueryContext {
    QueryContext(
      MentionsAny(term, PriceKeywords),
      MentionsAny(term, IntensityKeywords),
      MentionsAny(term, LocationKeywords),
      MentionsAny(term, ServiceKeywords),
      MentionsAny(term, VibeKeywords))
  }

  /** A keyword of the "cheap" family occurs in the term. */
  predicate WantsCheap(term: string) {
    Contains(term, "cheap") || Contains(term, "affordable") || Contains(term, "budget")
  }

  /** A keyword of the "expensive" family occurs in the term. */
  predicate WantsPremium(term: string) {
    Contains(term, "expensive") || Contains(term, "premium")
  }

  /** A keyword of the "intense" family occurs in the term. */
  predicate WantsIntense(term: string) {
    Contains(term, "intense") || Contains(term, "hardcore") || Contains(term, "challenging")
  }

  /** A keyword of the "gentle" family occurs in the term. */
  predicate WantsGentle(term: string) {
    Contains(term, "gentle") || Contains(term, "easy")
  }

  /**
   * The heuristic match `contextMatch`: it starts false, the price branch
   * may set it, and the intensity branch, when it runs, overwrites it.
   * The vibe tests are case-sensitive and on the vibe as stored.
   */
  function ContextMatch(b: Business, term: string, context: QueryContext): bool {
    var afterPrice :=
      if context.isPriceQuery then
        if WantsCheap(term) then b.price <= 35
        else if WantsPremium(term) then b.price >= 50
        else false
      else false;
    if context.isIntensityQuery then
      if WantsIntense(term) then Contains(b.vibe, "Performance & Intensity")
      else if WantsGentle(term) then Contains(b.vibe, "Calm & Wellness")
      else afterPrice
    else afterPrice
  }

  /** What the heuristic decides, stated by which keywords occur in the term. */
  lemma HeuristicCases(b: Business, term: string)
    ensures var m := ContextMatch(b, term, ProcessQuery(term));
      && (WantsIntense(term) ==> (m <==> Contains(b.vibe, "Performance & Intensity")))
      && (!WantsIntense(term) && WantsGentle(term) ==> (m <==> Contains(b.vibe, "Calm & Wellness")))
      && (!WantsIntense(term) && !WantsGentle(term) && WantsCheap(term) ==> (m <==> b.price <= 35))
      && (!WantsIntense(term) && !WantsGentle(term) && !WantsCheap(term) && WantsPremium(term)
          ==> (m <==> b.price >= 50))
      && (!WantsIntense(term) && !WantsGentle(term) && !WantsCheap(term) && !WantsPremium(term) ==> !m)
  {
    var context := ProcessQuery(term);
    if WantsIntense(term) {
      if Contains(term, "intense") {
        assert Contains(term, IntensityKeywords[0]);
      } else if Contains(term, "hardcore") {
        assert Contains(term, IntensityKeywords[1]);
      } else {
        assert Contains(term, IntensityKeywords[2]);
      }
    } else if WantsGentle(term) {
      if Contains(term, "gentle") {
        assert Contains(term, IntensityKeywords[4]);
      } else {
        assert Contains(term, IntensityKeywords[3]);
      }
    } else {
      if WantsCheap(term) {
        if Contains(term, "cheap") {
          assert Contains(term, PriceKeywords[0]);
        } else if Contains(term, "affordable") {
          assert Contains(term, PriceKeywords[1]);
        } else {
          assert Contains(term, PriceKeywords[3]);
        }
      } else if WantsPremium(term) {
        if Contains(term, "expensive") {
          assert Contains(term, PriceKeywords[2]);
        } else {
          assert Contains(term, PriceKeywords[4]);
        }
      }
    }
  }

  /** The search term: the query lower-cased and trimmed. */
  function SearchTerm(query: string): string {
    Trim(Lower(query))
  }

  /** The filter predicate: the basic text match or the heuristic match. */
  function KeepFor(term: string): Business -> bool {
    b => Mentions(b, term) || ContextMatch(b, term, ProcessQuery(term))
  }

  /**
   * `searchBusinesses(businesses, query)`: a blank query returns the list as
   * given; otherwise the listings whose text mentions the trimmed, lower-cased
   * term or that the heuristic matches, in their order.
   */
  function SearchBusinesses(businesses: seq<Business>, query: string): (r: seq<Business>)
    ensures Blank(query) ==> r == businesses
    ensures IsSubsequence(r, businesses)
    ensures !Blank(query) ==> forall b :: b in r <==>
      b in businesses
      && (Mentions(b, SearchTerm(query)) || ContextMatch(b, SearchTerm(query), ProcessQuery(SearchTerm(query))))
    ensures !Blank(query) ==> forall b ::
      multiset(r)[b] ==
        if Mentions(b, SearchTerm(query)) || ContextMatch(b, SearchTerm(query), ProcessQuery(SearchTerm(query)))
        then multiset(businesses)[b] else 0
  {
    if Blank(query) then
      assert IsSubsequence(businesses, businesses) by { Reflexive(businesses); }
      businesses
    else
      var keep := KeepFor(SearchTerm(query));
      FilterIsSubsequence(businesses, keep);
      assert forall b :: multiset(Filter(businesses, keep))[b] == if keep(b) then multiset(businesses)[b] else 0 by {
        forall b ensures multiset(Filter(businesses, keep))[b] == if keep(b) then multiset(businesses)[b] else 0 {
          FilterMultiset(businesses, keep, b);
        }
      }
      Filter(businesses, keep)
  }

  lemma {:induction false} Reflexive(s: seq<Business>)
    ensures IsSubsequence(s, s)
  {
    if |s| > 0 {
      Reflexive(s[1..]);
    }
  }

  // ---------------------------------------------------------------------
  // Suggestions

  /** `s` is one of the suggestions business `b` offers for `term`. */
  predicate SuggestionFrom(s: string, b: Business, term: string) {
    || (s == b.name && Contains(Lower(b.name), term))
    || (s == b.category && Contains(Lower(b.category), term))
    || (s == b.category + " in " + b.location && Contains(Lower(b.location), term))
    || (exists i :: 0 <= i < |b.services| && s == b.category + " with " + b.services[i]
                   && Contains(Lower(b.services[i]), term))
  }

  /** The per-service suggestions, in service order. */
  function ServiceCandidates(category: string, services: seq<string>, term: string): seq<string>
    decreases |services|
  {
    if |services| == 0 then []
    else
      var last := services[|services| - 1];
      ServiceCandidates(category, services[..|services| - 1], term)
      + (if Contains(Lower(last), term) then [category + " with " + last] else [])
  }

  /** The name, category and location suggestions of one business, in that order. */
  function FieldCandidates(b: Business, term: string): seq<string> {
    (if Contains(Lower(b.name), term) then [b.name] else [])
    + (if Contains(Lower(b.category), term) then [b.category] else [])
    + (if Contains(Lower(b.location), term) then [b.category + " in " + b.location] else [])
  }

  /** Every suggestion every business offers, in the order they are added to the set. */
  function Candidates(businesses: seq<Business>, term: string): seq<string>
    decreases |businesses|
  {
    if |businesses| == 0 then []
    else
      var b := businesses[|businesses| - 1];
      Candidates(businesses[..|businesses| - 1], term)
      + FieldCandidates(b, term) + ServiceCandidates(b.category, b.services, term)
  }

  /** At most `n` leading elements: `s.slice(0, n)`. */
  function Take(s: seq<string>, n: nat): (r: seq<string>)
    ensures |r| == if |s| <= n then |s| else n
    ensures IsPrefixOf(r, s)
  {
    if |s| <= n then s else s[..n]
  }

  predicate IsPrefixOf(a: seq<string>, b: seq<string>) {
    |a| <= |b| && b[..|a|] == a
  }

  /** `getSearchSuggestions(businesses, query)`, as a value. */
  function Suggestions(businesses: seq<Business>, query: string): seq<string> {
    if Blank(query) then [] else Take(Dedup(Candidates(businesses, Lower(query))), 5)
  }

  /** `Set.add` on an insertion-ordered set of strings. */
  function SetAdd(members: seq<string>, x: string): (r: seq<string>)
    ensures forall y :: y in r <==> y in members || y == x
  {
    if x in members then members else members + [x]
  }

  /** Adding to the set of distinct candidates is de-duplicating one more candidate. */
  lemma SetAddDedup(candidates: seq<string>, x: string)
    ensures SetAdd(Dedup(candidates), x) == Dedup(candidates + [x])
  {
    DedupAppend(candidates, x);
  }

  /** Add `x` to the set when `cond` holds; the set tracks the distinct candidates. */
  lemma AddIf(members: seq<string>, candidates: seq<string>, cond: bool, x: string)
    requires members == Dedup(candidates)
    ensures (if cond then SetAdd(members, x) else members)
         == Dedup(candidates + (if cond then [x] else []))
  {
    if cond {
      SetAddDedup(candidates, x);
    } else {
      assert candidates + [] == candidates;
    }
  }

  /** The name, category and location steps of the `forEach` body over businesses. */
  method AddFieldSuggestions(suggestions: seq<string>, b: Business, term: string, ghost before: seq<string>)
    returns (next: seq<string>)
    requires suggestions == Dedup(before)
    ensures next == Dedup(before + FieldCandidates(b, term))
  {
    var inName := Contains(Lower(b.name), term);
    var inCategory := Contains(Lower(b.category), term);
    var inLocation := Contains(Lower(b.location), term);
    var atLocation := b.category + " in " + b.location;
    ghost var fromName := if inName then [b.name] else [];
    ghost var fromCategory := if inCategory then [b.category] else [];
    ghost var fromLocation := if inLocation then [atLocation] else [];
    assert FieldCandidates(b, term) == fromName + fromCategory + fromLocation;
    ghost var c1 := before + fromName;
    ghost var c2 := c1 + fromCategory;
    ghost var c3 := c2 + fromLocation;
    assert c3 == before + (fromName + fromCategory + fromLocation);
    next := suggestions;
    AddIf(next, before, inName, b.name);
    if inName {
      next := SetAdd(next, b.name);
    }
    AddIf(next, c1, inCategory, b.category);
    if inCategory {
      next := SetAdd(next, b.category);
    }
    AddIf(next, c2, inLocation, atLocation);
    if inLocation {
      next := SetAdd(next, atLocation);
    }
  }

  /** The inner `forEach` over the services of one business. */
  method AddServiceSuggestions(suggestions: seq<string>, category: string, services: seq<string>, term: string,
                               ghost before: seq<string>)
    returns (next: seq<string>)
    requires suggestions == Dedup(before)
    ensures next == Dedup(before + ServiceCandidates(category, services, term))
  {
    next := suggestions;
    assert services[..0] == [];
    assert before + ServiceCandidates(category, services[..0], term) == before;
    for j := 0 to |services|
      invariant next == Dedup(before + ServiceCandidates(category, services[..j], term))
    {
      var service := services[j];
      var inService := Contains(Lower(service), term);
      var withService := category + " with " + service;
      ghost var done := before + ServiceCandidates(category, services[..j], term);
      assert services[..j + 1][..j] == services[..j];
      assert before + ServiceCandidates(category, services[..j + 1], term)
          == done + (if inService then [withService] else []);
      AddIf(next, done, inService, withService);
      if inService {
        next := SetAdd(next, withService);
      }
    }
    assert services[..|services|] == services;
  }

  /**
   * `getSearchSuggestions`: a blank query gives no suggestions; otherwise
   * each business adds its matching name, category, location and service
   * suggestions to an insertion-ordered set, and the first five are returned.
   */
  method GetSearchSuggestions(businesses: seq<Business>, query: string) returns (r: seq<string>)
    ensures r == Suggestions(businesses, query)
    ensures |r| <= 5 && NoDuplicates(r)
    ensures Blank(query) ==> r == []
  {
    if Blank(query) {
      return [];
    }
    var suggestions := CollectSuggestions(businesses, Lower(query));
    r := Take(suggestions, 5);
    assert forall k :: 0 <= k < |r| ==> r[k] == suggestions[k];
  }

  /** The `businesses.forEach` loop: the set ends up holding the distinct candidates in insertion order. */
  method CollectSuggestions(businesses: seq<Business>, term: string) returns (suggestions: seq<string>)
    ensures suggestions == Dedup(Candidates(businesses, term))
  {
    suggestions := [];
    for i := 0 to |businesses|
      invariant suggestions == Dedup(Candidates(businesses[..i], term))
    {
      assert businesses[..i + 1][..i] == businesses[..i];
      var b := businesses[i];
      CandidatesSnoc(businesses[..i + 1], term);
      ghost var before := Candidates(businesses[..i], term);
      suggestions := AddFieldSuggestions(suggestions, b, term, before);
      suggestions := AddServiceSuggestions(suggestions, b.category, b.services, term,
                                           before + FieldCandidates(b, term));
      assert before + FieldCandidates(b, term) + ServiceCandidates(b.category, b.services, term)
          == Candidates(businesses[..i + 1], term);
    }
    assert businesses[..|businesses|] == businesses;
  }

  lemma {:induction false} ServiceCandidatesMembership(category: string, services: seq<string>, term: string, s: string)
    ensures s in ServiceCandidates(category, services, term) <==>
      exists i :: 0 <= i < |services| && s == category + " with " + services[i] && Contains(Lower(services[i]), term)
    decreases |services|
  {
    if |services| > 0 {
      var init := services[..|services| - 1];
      ServiceCandidatesMembership(category, init, term, s);
      if exists i :: 0 <= i < |init| && s == category + " with " + init[i] && Contains(Lower(init[i]), term) {
        var i :| 0 <= i < |init| && s == category + " with " + init[i] && Contains(Lower(init[i]), term);
        assert services[i] == init[i];
      }
      if exists i :: 0 <= i < |services| && s == category + " with " + services[i] && Contains(Lower(services[i]), term) {
        var i :| 0 <= i < |services| && s == category + " with " + services[i] && Contains(Lower(services[i]), term);
        if i < |init| {
          assert init[i] == services[i];
        }
      }
    }
  }

  /** The candidates of one business are exactly the suggestions it offers. */
  lemma BusinessCandidatesMembership(b: Business, term: string, s: string)
    ensures s in FieldCandidates(b, term) + ServiceCandidates(b.category, b.services, term)
        <==> SuggestionFrom(s, b, term)
  {
    ServiceCandidatesMembership(b.category, b.services, term, s);
  }

  /** Some listing of `businesses` offers the suggestion `s`. */
  predicate Offered(businesses: seq<Business>, term: string, s: string) {
    exists b :: b in businesses && SuggestionFrom(s, b, term)
  }

  /** A listing appended to the list offers what it offers, beside what the rest offer. */
  lemma OfferedSnoc(init: seq<Business>, b: Business, term: string, s: string)
    ensures Offered(init + [b], term, s) <==> Offered(init, term, s) || SuggestionFrom(s, b, term)
  {
    if Offered(init + [b], term, s) {
      var c :| c in init + [b] && SuggestionFrom(s, c, term);
      if c != b {
        assert c in init;
      }
    }
    if SuggestionFrom(s, b, term) {
      assert b in init + [b];
    }
    if Offered(init, term, s) {
      var c :| c in init && SuggestionFrom(s, c, term);
      assert c in init + [b];
    }
  }

  /** The candidates of a list are those of all but its last listing, then the last one's own. */
  lemma CandidatesSnoc(businesses: seq<Business>, term: string)
    requires |businesses| > 0
    ensures var b := businesses[|businesses| - 1];
      Candidates(businesses, term) == Candidates(businesses[..|businesses| - 1], term)
        + (FieldCandidates(b, term) + ServiceCandidates(b.category, b.services, term))
  {
  }

  /** A candidate is exactly a suggestion some business offers. */
  lemma {:induction false} CandidatesMembership(businesses: seq<Business>, term: string, s: string)
    ensures s in Candidates(businesses, term) <==> Offered(businesses, term, s)
    decreases |businesses|
  {
    if |businesses| > 0 {
      var init := businesses[..|businesses| - 1];
      var b := businesses[|businesses| - 1];
      var own := FieldCandidates(b, term) + ServiceCandidates(b.category, b.services, term);
      CandidatesMembership(init, term, s);
      BusinessCandidatesMembership(b, term, s);
      CandidatesSnoc(businesses, term);
      assert s in Candidates(businesses, term) <==> s in Candidates(init, term) || s in own;
      assert businesses == init + [b];
      OfferedSnoc(init, b, term, s);
    }
  }

  /** Every suggestion is the name, category, location or service suggestion of a listing. */
  lemma SuggestionsSound(businesses: seq<Business>, query: string, s: string)
    requires s in Suggestions(businesses, query)
    ensures !Blank(query)
    ensures exists b :: b in businesses && SuggestionFrom(s, b, Lower(query))
  {
    var candidates := Candidates(businesses, Lower(query));
    assert s in Dedup(candidates);
    CandidatesMembership(businesses, Lower(query), s);
  }

  /** A suggestion some listing offers is returned unless five suggestions already are. */
  lemma SuggestionsComplete(businesses: seq<Business>, query: string, b: Business, s: string)
    requires !Blank(query)
    requires b in businesses && SuggestionFrom(s, b, Lower(query))
    ensures s in Suggestions(businesses, query) || |Suggestions(businesses, query)| == 5
  {
    CandidatesMembership(businesses, Lower(query), s);
    assert s in Dedup(Candidates(businesses, Lower(query)));
  }

  /** Suggestions come in the order in which they were first added to the set. */
  lemma SuggestionsInInsertionOrder(businesses: seq<Business>, query: string, i: nat, j: nat)
    requires i < j < |Suggestions(businesses, query)|
    ensures var candidates := Candidates(businesses, Lower(query));
      var r := Suggestions(businesses, query);
      r[i] in candidates && r[j] in candidates
      && FirstIndex(candidates, r[i]) < FirstIndex(candidates, r[j])
  {
    var candidates := Candidates(businesses, Lower(query));
    var d := Dedup(candidates);
    var r := Suggestions(businesses, query);
    assert r[i] == d[i] && r[j] == d[j];
    DedupFirstOccurrenceOrder(candidates, i, j);
  }
}
