# Fitness directory: listing, search and compare logic in Dafny

This project models the logic core of a fitness-business directory. The directory has two halves:

- An Express back end serves a list of businesses (gyms, studios, yoga schools). It filters and sorts them on request.
- A React front end holds the user's filters, searches and suggests as the user types, sorts a table, and keeps a two-slot selection for side-by-side comparison.

The model covers these parts:

- **`BusinessesRoute`** (`backend/routes/businesses.js`):
  - The `GET /` filter chain. It narrows by category, then by a lower and an upper price bound, then by services, vibe and a text search, in that order. It then sorts by rating, highest first, and reports `count` and `total`.
  - The `GET /:id` lookup, with `parseInt` on the path parameter.
  - The distinct-category and distinct-service lists of the two `meta` endpoints.
- **`Search`** (`src/utils/search.ts`):
  - The client search: a six-field substring match plus the cheap/premium and intense/gentle keyword heuristics.
  - The suggestion list, built in an insertion-ordered set and cut to five.
- **`CompareContext`** (`src/context/CompareContext.tsx`): the `CompareProvider` state. It is a class with the two state cells `compareItems` and `showCompareModal`, and guarded add, remove, clear and open operations.
- **`CompareFeature`** (`src/hooks/useCompareFeature.ts`):
  - `isBusinessInCompare` (`IsBusinessInCompare`), `canAddToCompare` (`CanAddToCompare`), `compareCount` and `canCompare` are read off a provider.
  - `toggleCompare` is built from the provider's remove and add.
- **`BusinessContext`** (`src/context/BusinessContext.tsx`): the initial filters, the `businessReducer`, the request parameters built from the filters, and `searchBusinesses`.
- **`FilterPanel`** (`src/components/FilterPanel.tsx`): the service checkbox toggle, the price change handler and `hasActiveFilters`.
- **`TableView`** (`src/components/TableView.tsx`): the sort state cells, the header click handler and the sorted copy of the list.

Shared modules provide what the JavaScript runtime provides:

- `JsString`: `toLowerCase`, `includes`, `trim`, `split`/`join` on a character, and `parseInt` as section 19.2.5 of ECMA-262 defines it, over exact integers.
- `Seqs`: `filter`, and the first-occurrence de-duplication that `[...new Set(xs)]` performs.
- `Sorting`: a stable sort by a comparator, which is what `Array.prototype.sort` has been required to be since ECMAScript 2019.

The lemma `Sorting.IsTheStableSort` shows that only one arrangement is both sorted and keeps ties in input order. So any stable sort gives the same result as the model's insertion sort.

In these places the code behaves in ways a reader may not expect; the model follows the code:

- A `minPrice` or `maxPrice` that `parseInt` reads as `NaN` is not "no constraint". Every comparison with `NaN` is false, so such a bound rejects every business (`BusinessesRoute.UnparsableBoundListsNothing`).
- `removeFromCompare` does not clear the modal flag. Selecting two businesses, opening the modal and removing one leaves the flag set with one item selected (`CompareContext.ModalOutlivesPair`). Only the modal's renderer checks for two items.
- The server's `search` parameter has no keyword heuristics and is not trimmed. A server search for "cheap" matches only businesses whose text contains "cheap". The heuristics exist only in the client's `searchBusinesses`.
- Toggling a selected service twice in the filter panel does not give the list back: the service comes back at the end (`FilterPanel.ToggleServiceTwicePresent`, `FilterPanel.ToggleTwiceReorders`). Toggling an unselected service twice does restore the list.

## Model

| member | source | states |
|---|---|---|
| BusinessesRoute.ListBusinesses | backend/routes/businesses.js:22-90 | The response's data is the listing: the businesses that pass every stage the query switches on, in rating order. `count` is the number of matches and `total` is the size of the whole list. |
| BusinessesRoute.Given | backend/routes/businesses.js:36 | A query parameter is truthy: present and not the empty string. |
| BusinessesRoute.Passes | backend/routes/businesses.js:29-80 | One stage's test: category equality ignoring case, a price bound from `parseInt` where `NaN` fails every comparison, some requested service contained in some service, the vibe containing the parameter, or the six-field search. |
| BusinessesRoute.ActiveCriteria | backend/routes/businesses.js:29-80 | The stages the query switches on, in the handler's order: category, minimum price, maximum price, services, vibe, search. |
| BusinessesRoute.HigherRatedFirst | backend/routes/businesses.js:83 | `a` may come before `b` when the comparator `b.rating - a.rating` is at most 0, that is when `a.rating >= b.rating`. |
| BusinessesRoute.NarrowIf | backend/routes/businesses.js:29-80 | One `if (param)` stage: the list filtered by the stages so far becomes the list filtered by those stages and this one. A stage that is off leaves the list as it is. |
| BusinessesRoute.Listing | backend/routes/businesses.js:24-83 | The listing is a permutation of exactly the businesses that pass every active stage, with ratings non-increasing. |
| BusinessesRoute.ListingMembership | backend/routes/businesses.js:29-80 | A business is listed if and only if it is in the list and meets every given parameter: category equality ignoring case; both price bounds parse and hold; some requested service is in some service; the vibe includes the parameter; the six-field search matches. |
| BusinessesRoute.PassesActiveCriteria | backend/routes/businesses.js:29-80 | Passing the chain of active stages is the conjunction of the per-parameter conditions, in both directions. |
| BusinessesRoute.CategoryStageMeaning | backend/routes/businesses.js:29-33 | The category stage exists only when the parameter is given and not `all`, and keeps exactly the businesses whose category equals it ignoring case. |
| BusinessesRoute.PriceStagesMeaning | backend/routes/businesses.js:36-46 | The price stages keep exactly the businesses whose price is at least `parseInt(minPrice)` and at most `parseInt(maxPrice)`; a `NaN` bound keeps none. |
| BusinessesRoute.TextStagesMeaning | backend/routes/businesses.js:49-80 | The services, vibe and search stages keep exactly the businesses meeting their substring conditions, each switched on only by a given parameter (vibe also not `all`). |
| BusinessesRoute.PassesAllAppend | backend/routes/businesses.js:29-80 | Passing two stage lists in sequence is passing both. |
| BusinessesRoute.PassesStageIf | backend/routes/businesses.js:29-80 | A stage that is off passes every business; one that is on is its criterion. |
| BusinessesRoute.AddStage | backend/routes/businesses.js:30-79 | Filtering the filtered list by one more criterion equals filtering the original list by all of them. |
| BusinessesRoute.AddStageIf | backend/routes/businesses.js:29-80 | The same, for a stage switched on or off. |
| BusinessesRoute.UnparsableBoundListsNothing | backend/routes/businesses.js:36-46 | A given price bound that parses to `NaN` empties the listing. |
| BusinessesRoute.NoParametersListsAll | backend/routes/businesses.js:24-83 | With every query parameter missing or empty the listing is the whole list, sorted by rating with ties in list order. |
| BusinessesRoute.ListingStable | backend/routes/businesses.js:83 | Businesses with equal ratings appear in the listing in the order they pass the filters. |
| BusinessesRoute.HigherRatedFirstIsTotalPreorder | backend/routes/businesses.js:83 | The comparator `b.rating - a.rating` is total and transitive, as `sort` needs. |
| BusinessesRoute.ServicesList | backend/routes/businesses.js:50 | One requested service per comma-separated piece; every requested name is free of commas and has nothing left to trim. |
| BusinessesRoute.ServicesListOfJoin | backend/routes/businesses.js:50 | A comma-joined list of trimmed services without commas comes back unchanged. |
| BusinessesRoute.FindById | backend/routes/businesses.js:105 | The result is found if and only if some business has the id, and then it is a business of the list with that id. A `NaN` id finds nothing. |
| BusinessesRoute.FindByIdFirst | backend/routes/businesses.js:105 | `find` returns the first match: whenever the business at position i has the id, the one found lies at or before position i. |
| BusinessesRoute.GetBusiness | backend/routes/businesses.js:102-113 | Found exactly when some business's id equals `parseInt` of the path parameter; the business found has that id and is the first such, at or before every other match. A `NaN` id is not found. |
| BusinessesRoute.FindByOwnId | backend/routes/businesses.js:104-105 | With unique ids, looking up a business's id finds that business. |
| BusinessesRoute.GetBusinessById | backend/routes/businesses.js:104-113 | With unique ids, the decimal form of a business's id finds that business. |
| BusinessesRoute.Categories | backend/routes/businesses.js:129-132 | The category list has no duplicates and holds exactly the categories that occur. |
| BusinessesRoute.CategoriesInFirstOccurrenceOrder | backend/routes/businesses.js:131 | The categories come in the order of their first appearance. |
| BusinessesRoute.AllServices | backend/routes/businesses.js:149 | The flattened services hold exactly the services of some business. |
| BusinessesRoute.Services | backend/routes/businesses.js:147-151 | The service list has no duplicates and holds exactly the services of some business. |
| BusinessesRoute.ServicesInFirstOccurrenceOrder | backend/routes/businesses.js:149-150 | The services come in the order of their first appearance in the flattened list. |
| Search.SearchBusinesses | src/utils/search.ts:3-63 | A blank query returns the list unchanged. Otherwise the result is an order-preserving subsequence that keeps every copy of a business if and only if the trimmed, lower-cased term occurs in one of its six lower-cased fields or the keyword heuristic matches it, and no copy of any other. |
| Search.HeuristicCases | src/utils/search.ts:43-59 | The heuristic match by keyword: "intense", "hardcore" or "challenging" decide by the vibe "Performance & Intensity". Otherwise "gentle" or "easy" decide by "Calm & Wellness". Otherwise "cheap", "affordable" or "budget" mean price at most 35. Otherwise "expensive" or "premium" mean price at least 50. Otherwise it does not match. |
| Search.ProcessQuery | src/utils/search.ts:9-27 | Each of the five flags holds exactly when some keyword of its list occurs in the term. |
| Search.ContextMatch | src/utils/search.ts:43-59 | `contextMatch` starts false; the price branch may set it; the intensity branch, when a keyword of it occurs, overwrites it. |
| Search.MentionsAny | src/utils/search.ts:19-23 | `words.some(word => term.includes(word))`: some word of the list occurs in the term. |
| Search.SearchTerm | src/utils/search.ts:6 | `query.toLowerCase().trim()`. |
| Search.KeepFor | src/utils/search.ts:31-62 | The `filter` callback: the six-field text match or the heuristic match on the search term. |
| Types.Mentions | src/utils/search.ts:32-40 | The term occurs in the lower-cased name, category, location, description, some service or vibe; the same test as the server search at backend/routes/businesses.js lines 70-79. |
| Types.SomeServiceContains | src/utils/search.ts:37-39 | Some lower-cased service includes the term. |
| Search.GetSearchSuggestions | src/utils/search.ts:65-96 | The suggestions are the first five distinct candidates in insertion order; there are at most five, with no duplicates, and none for a blank query. |
| Search.CollectSuggestions | src/utils/search.ts:69-93 | After the loop over every business the set holds each candidate once, in the order it was first added. |
| Search.AddFieldSuggestions | src/utils/search.ts:73-85 | The name, category and location steps add to the set exactly the distinct new candidates of one business. |
| Search.AddServiceSuggestions | src/utils/search.ts:88-92 | The service loop adds to the set exactly the distinct new service candidates. |
| Search.SetAddDedup | src/utils/search.ts:69-90 | `Set.add` on the distinct candidates so far is de-duplication of one more candidate. |
| Search.AddIf | src/utils/search.ts:73-91 | A guarded `Set.add` keeps the set equal to the distinct candidates. |
| Search.Candidates | src/utils/search.ts:71-93 | Every `Set.add` argument of the loops, business by business and in the order the code adds them. |
| Search.Suggestions | src/utils/search.ts:65-96 | None for a blank query; otherwise the first five of the de-duplicated candidates. |
| Search.SetAdd | src/utils/search.ts:74 | `Set.add` on an insertion-ordered set: the set unchanged when the element is present, else the element appended; membership gains exactly the element. |
| Search.ServiceCandidatesMembership | src/utils/search.ts:88-92 | A service candidate is exactly "category with service" for a service that contains the term. |
| Search.BusinessCandidatesMembership | src/utils/search.ts:71-93 | A business's candidates are exactly the suggestions it offers. |
| Search.CandidatesMembership | src/utils/search.ts:71-93 | A candidate is exactly a suggestion some business offers: its name, category, "category in location" or "category with service", the field lower-cased containing the lower-cased, untrimmed query. |
| Search.SuggestionsSound | src/utils/search.ts:66-95 | Every suggestion comes from a non-blank query and is offered by some business. |
| Search.SuggestionsComplete | src/utils/search.ts:69-95 | A suggestion some business offers is returned unless five suggestions already are. |
| Search.SuggestionsInInsertionOrder | src/utils/search.ts:69-95 | Suggestions appear in the order in which they were first added to the set. |
| Search.Take | src/utils/search.ts:95 | `slice(0, n)` gives the first `min(n, length)` elements of the input. |
| CompareContext.CompareProvider.constructor | src/context/CompareContext.tsx:21-22 | The selection starts empty with the modal hidden, within the invariant. |
| CompareContext.CompareProvider.AddToCompare | src/context/CompareContext.tsx:24-28 | The business is appended only when fewer than two items are selected and its id is new; the flag is unchanged; the invariant is kept. |
| CompareContext.CompareProvider.RemoveFromCompare | src/context/CompareContext.tsx:30-32 | Every item with the id is dropped; the modal flag is unchanged; the invariant is kept. |
| CompareContext.CompareProvider.ClearCompare | src/context/CompareContext.tsx:34-37 | From any state, the selection is empty and the modal hidden. |
| CompareContext.CompareProvider.OpenCompareModal | src/context/CompareContext.tsx:39-43 | The flag becomes true exactly when two items are selected, and is otherwise unchanged; the items are unchanged. |
| CompareContext.CompareProvider.SetShowCompareModal | src/context/CompareContext.tsx:51 | The exported setter sets the flag with no guard and leaves the items. |
| CompareContext.WithAdded | src/context/CompareContext.tsx:24-28 | The list after `addToCompare`: the business appended when fewer than two are selected and its id is new, otherwise the list unchanged. |
| CompareContext.WithoutId | src/context/CompareContext.tsx:30-32 | The list after `removeFromCompare`: the items whose id differs, in order. |
| CompareContext.WithAddedBounded | src/context/CompareContext.tsx:25-27 | Adding keeps at most two items with distinct ids. |
| CompareContext.WithAddedHasId | src/context/CompareContext.tsx:25-27 | After an add the id is present exactly when it already was or there was room. |
| CompareContext.WithAddedIdempotent | src/context/CompareContext.tsx:25 | Adding the same business twice has the effect of adding it once. |
| CompareContext.WithoutIdMeaning | src/context/CompareContext.tsx:31 | After a removal the id is absent, exactly the other items remain, and in their order. |
| CompareContext.WithoutIdBounded | src/context/CompareContext.tsx:31 | Removal keeps the invariant. |
| CompareContext.WithoutIdDistinct | src/context/CompareContext.tsx:31 | Filtering a list with distinct ids leaves distinct ids. |
| CompareContext.RemoveUndoesAdd | src/context/CompareContext.tsx:24-32 | Adding a business whose id is new and then removing that id gives the selection back. |
| CompareContext.ModalOutlivesPair | src/context/CompareContext.tsx:30-43 | After add, add, open and remove, the modal flag is still set with one item selected. |
| CompareFeature.CompareCount | src/hooks/useCompareFeature.ts:43 | `compareCount` is the number of selected items, and never more than two within the provider's invariant. |
| CompareFeature.IsBusinessInCompare | src/hooks/useCompareFeature.ts:16-18 | Some selected item carries the id. |
| CompareFeature.CanAddToCompare | src/hooks/useCompareFeature.ts:20-22 | Fewer than two items are selected. |
| CompareFeature.CanCompare | src/hooks/useCompareFeature.ts:44 | Exactly two items are selected. |
| CompareFeature.Toggled | src/hooks/useCompareFeature.ts:24-30 | The list `toggleCompare` leaves: without the id when it is selected, else with the business added when there is room, else unchanged. |
| CompareFeature.CanCompareIffFull | src/hooks/useCompareFeature.ts:20-22 | Within the invariant, `canCompare` holds exactly when `canAddToCompare` does not, and the count is between 0 and 2. |
| CompareFeature.ToggleCompare | src/hooks/useCompareFeature.ts:24-30 | The selection becomes the toggled list; the modal flag is unchanged; the invariant is kept. |
| CompareFeature.ToggleRemovesPresent | src/hooks/useCompareFeature.ts:25-26 | Toggling a selected business removes it and keeps the other items in order. |
| CompareFeature.ToggleAbsent | src/hooks/useCompareFeature.ts:27-29 | Toggling an unselected business appends it when there is room and otherwise changes nothing. |
| CompareFeature.ToggleTwiceRestores | src/hooks/useCompareFeature.ts:24-30 | Toggling an unselected business twice gives the selection back. |
| CompareFeature.ToggledBounded | src/hooks/useCompareFeature.ts:24-30 | Toggling keeps at most two items with distinct ids. |
| BusinessContext.InitialFilters | src/context/BusinessContext.tsx:5-12 | Category `all`, prices 0 and 100, no services, vibe `all`, empty search. |
| BusinessContext.InitialState | src/context/BusinessContext.tsx:65-73 | Empty lists, the initial filters, not loading, no error. |
| BusinessContext.ApplyPatch | src/context/BusinessContext.tsx:53 | `{ ...filters, ...patch }`: each field the patch holds wins, the others stay. |
| BusinessContext.Reduce | src/context/BusinessContext.tsx:42-63 | `businessReducer`: each action's update of the state, and the state itself for an unknown action. |
| BusinessContext.SearchBusinessesAction | src/context/BusinessContext.tsx:149-151 | `searchBusinesses(q)` dispatches `SET_FILTERS` with a patch holding only the search text. |
| BusinessContext.SetFiltersAction | src/context/BusinessContext.tsx:141-143 | `setFilters(patch)` dispatches `SET_FILTERS` with the patch. |
| BusinessContext.SetFiltersOverwritesPresentFields | src/context/BusinessContext.tsx:52-53 | `SET_FILTERS` overwrites exactly the fields the patch holds; the other filters and the rest of the state are unchanged. |
| BusinessContext.EmptyPatchIsIdentity | src/context/BusinessContext.tsx:52-53 | An empty patch changes nothing. |
| BusinessContext.SetFiltersIdempotent | src/context/BusinessContext.tsx:52-53 | Applying the same patch twice is applying it once. |
| BusinessContext.ResetFiltersRestoresInitial | src/context/BusinessContext.tsx:54-55 | `RESET_FILTERS` yields exactly category `all`, prices 0 and 100, no services, vibe `all`, empty search. Nothing else changes, and a second reset changes nothing. |
| BusinessContext.SetErrorStopsLoading | src/context/BusinessContext.tsx:46-47 | `SET_ERROR` records the error and forces loading false; nothing else changes. |
| BusinessContext.SetBusinessesStopsLoading | src/context/BusinessContext.tsx:48-49 | `SET_BUSINESSES` stores the list, forces loading false and clears the error; nothing else changes. |
| BusinessContext.OtherActionsChangeOneField | src/context/BusinessContext.tsx:42-63 | Loading, filtered list, categories and services actions change only their own field; an unknown action returns the state unchanged. |
| BusinessContext.SearchBusinessesSetsSearch | src/context/BusinessContext.tsx:149-151 | `searchBusinesses(q)` replaces the search text and nothing else. |
| BusinessContext.RequestParams | src/context/BusinessContext.tsx:117-124 | Each parameter is present exactly when its filter differs from the initial value (category and vibe not `all`, minPrice above 0, maxPrice below 100, services non-empty and comma-joined, search non-empty), with that value; no other key. |
| BusinessContext.InitialFiltersNoParams | src/context/BusinessContext.tsx:5-12 | The initial filters produce no parameters. |
| BusinessContext.BuildParams | src/context/BusinessContext.tsx:117-124 | The map filled field by field is the request parameters. |
| FilterPanel.ToggleService | src/components/FilterPanel.tsx:26-28 | Every copy of the service removed when it is selected, else the service appended. |
| FilterPanel.HandleServiceToggle | src/components/FilterPanel.tsx:25-30 | The patch handed to `setFilters` holds only the toggled service list. |
| FilterPanel.HandlePriceChange | src/components/FilterPanel.tsx:21-23 | The patch handed to `setFilters` holds only the named bound. |
| FilterPanel.HasActiveFilters | src/components/FilterPanel.tsx:36-43 | Some filter differs from its initial value. |
| FilterPanel.ToggleServiceFlips | src/components/FilterPanel.tsx:25-30 | After a toggle the service is selected if and only if it was not. |
| FilterPanel.ToggleServiceKeepsOthers | src/components/FilterPanel.tsx:26-28 | The other services keep their order and multiplicity. |
| FilterPanel.ToggleServiceTwiceAbsent | src/components/FilterPanel.tsx:26-28 | Toggling an unselected service twice restores the list. |
| FilterPanel.ToggleServiceTwicePresent | src/components/FilterPanel.tsx:26-28 | Toggling a selected service twice removes every copy and puts one at the end. |
| FilterPanel.ToggleTwiceReorders | src/components/FilterPanel.tsx:26-28 | For ["Yoga", "Pilates"], toggling "Yoga" twice gives ["Pilates", "Yoga"]. |
| FilterPanel.PriceChangeSetsOneBound | src/components/FilterPanel.tsx:21-23 | A price change sets only the named bound. |
| FilterPanel.BoundsCanCross | src/components/FilterPanel.tsx:21-23 | Nothing keeps minPrice at or below maxPrice. |
| FilterPanel.ActiveIffParams | src/components/FilterPanel.tsx:36-43 | `hasActiveFilters` holds exactly when the request carries some parameter. |
| FilterPanel.ResetIsInactive | src/components/FilterPanel.tsx:36-43 | The initial filters, and the filters after any reset, are not active. |
| TableView.TableSort.constructor | src/components/TableView.tsx:11-12 | No sort column, ascending. |
| TableView.TableSort.HandleSort | src/components/TableView.tsx:14-21 | Clicking the current column flips the direction; another column becomes current, ascending. |
| TableView.FieldLe | src/components/TableView.tsx:27-37 | The column's values compared, strings lower-cased and compared character by character, numbers numerically. |
| TableView.ColumnOrder | src/components/TableView.tsx:26-38 | `a` may come before `b` when the comparator does not return 1: the column in order ascending, reversed descending. |
| TableView.LexLe | src/components/TableView.tsx:36-37 | String `<=`: a prefix first, otherwise the first differing character decides. |
| TableView.TableSort.SortedBusinesses | src/components/TableView.tsx:23-40 | Without a column the list is returned as is. Otherwise the result is a permutation sorted by the column in the chosen direction. |
| TableView.SortedBusinessesStable | src/components/TableView.tsx:26-38 | Rows equal in the chosen column keep their input order. |
| TableView.SortedBusinessesAdjacent | src/components/TableView.tsx:31-38 | Ascending, each row's lower-cased column value is at most the next one's; descending, at least. |
| TableView.ColumnOrderIsTotalPreorder | src/components/TableView.tsx:36-38 | The comparator for every column and direction is total and transitive. |
| TableView.FieldLeTotal | src/components/TableView.tsx:36-37 | Any two rows are ordered one way or the other in each column. |
| TableView.FieldLeTransitive | src/components/TableView.tsx:36-37 | The column order is transitive. |
| TableView.LexLeTotal | src/components/TableView.tsx:36-37 | String `<=` is total. |
| TableView.LexLeTransitive | src/components/TableView.tsx:36-37 | String `<=` is transitive. |
| Sorting.SortBySorted | backend/routes/businesses.js:83 | The sort's result is sorted by a total, transitive comparator. |
| Sorting.SortByStable | backend/routes/businesses.js:83 | Elements the comparator ties keep their input order. |
| Sorting.InsertSorted | backend/routes/businesses.js:83 | Inserting into a sorted list keeps it sorted. |
| Sorting.InsertTies | backend/routes/businesses.js:83 | Insertion puts a new element in front of the elements tied with it, leaving their order; this is what makes the sort stable. |
| Sorting.SortByOfSorted | backend/routes/businesses.js:83 | Sorting a sorted list changes nothing. |
| Sorting.StableArrangementUnique | backend/routes/businesses.js:83 | Two sorted arrangements with the same ties in the same order are equal. |
| Sorting.IsTheStableSort | backend/routes/businesses.js:83 | Any sorted arrangement that keeps ties in input order is the model's sort. |
| Sorting.Insert | backend/routes/businesses.js:83 | Insertion adds exactly the element. |
| Sorting.SortBy | backend/routes/businesses.js:83 | The sort is a permutation. |
| JsString.Lower | backend/routes/businesses.js:31 | Lower-casing keeps the length and maps each character. |
| JsString.LowerChar | backend/routes/businesses.js:31 | Upper-case ASCII letters become lower case; nothing else changes; no upper-case letter remains. |
| JsString.LowerIdempotent | src/utils/search.ts:6 | Lower-casing twice is lower-casing once. |
| JsString.ContainsIffOccurs | src/utils/search.ts:33 | `includes` holds exactly when the needle occurs at some offset. |
| JsString.Contains | src/utils/search.ts:33 | `hay.includes(needle)`: the needle is a prefix of some suffix of the haystack. |
| JsString.TrimStart | src/utils/search.ts:6 | Leading whitespace is removed, and only that. |
| JsString.TrimEnd | src/utils/search.ts:6 | Trailing whitespace is removed, and only that. |
| JsString.Trim | src/utils/search.ts:6 | The result is a contiguous part of the input with only whitespace before and after it in the input, and no whitespace at either of its own ends. |
| JsString.BlankIffAllWhitespace | src/utils/search.ts:4 | `!query.trim()` holds exactly when the query is all whitespace. |
| JsString.Blank | src/utils/search.ts:4 | `!s.trim()`: the trimmed string is empty. |
| JsString.TrimIdempotent | backend/routes/businesses.js:50 | Trimming twice is trimming once. |
| JsString.Split | backend/routes/businesses.js:50 | Splitting gives at least one piece, and no piece holds the separator. |
| JsString.SplitJoin | src/context/BusinessContext.tsx:122 | Splitting a comma-join gives back the pieces when none holds a comma. |
| JsString.JoinSplit | backend/routes/businesses.js:50 | Joining the pieces of a split gives back the string. |
| JsString.Join | src/context/BusinessContext.tsx:122 | `parts.join(sep)`: the parts with one separator between each two. |
| JsString.DigitRun | backend/routes/businesses.js:38 | `parseInt` reads the longest run of digits. |
| JsString.ParseInt | backend/routes/businesses.js:38 | `parseInt(s)`: leading whitespace skipped, an optional sign, a `0x` prefix selecting radix 16, then the longest run of digits; `NaN` when there is none. |
| JsString.IntToString | backend/routes/businesses.js:104 | `String(n)` for a safe integer: a minus sign for negatives, then the decimal digits with no leading zero. |
| JsString.NatToString | backend/routes/businesses.js:104 | The decimal form is all digits with no leading zero. |
| JsString.DigitsValueOfNatToString | backend/routes/businesses.js:104 | The decimal digits of `n` have the value `n`. |
| JsString.ParseUnsignedOfNatToString | backend/routes/businesses.js:104 | The unsigned part of `parseInt` reads a decimal form back. |
| JsString.ParseIntOfIntToString | backend/routes/businesses.js:104 | `parseInt` of the decimal form of an integer `n` is `n`. With JavaScript numbers this holds for safe integers (magnitude below 2^53), which ids are. |
| Seqs.Filter | backend/routes/businesses.js:30-32 | `filter` keeps exactly the elements that pass and is no longer than its input. |
| Seqs.FilterIsSubsequence | src/utils/search.ts:31 | `filter` returns an order-preserving subsequence. |
| Seqs.FilterAllPass | backend/routes/businesses.js:24 | Filtering by a test every element passes changes nothing. |
| Seqs.FilterFilter | backend/routes/businesses.js:30-79 | Two filters in sequence are one filter by the conjunction. |
| Seqs.FilterMultiset | backend/routes/businesses.js:30-79 | `filter` keeps every copy of a passing element and no copy of a failing one. |
| Seqs.Dedup | backend/routes/businesses.js:131 | `[...new Set(xs)]` has no duplicates and holds exactly the elements of `xs`. |
| Seqs.DedupAppend | src/utils/search.ts:74 | Adding an element to the set appends it only if new. |
| Seqs.DedupFirstOccurrenceOrder | backend/routes/businesses.js:131 | The set's elements come in the order of their first occurrence. |

## Left out

- Express wiring, loading the data file, status codes and the `try`/`catch` 500 responses are left out. The list of businesses is a parameter, and a not-found lookup is a `NotFound` value. A query parameter given twice, which Express turns into an array, is not modelled; each parameter is a string or absent.
- Fetching, `Promise.all`, the 300 ms debounce, the effects that dispatch, and `src/services/api.ts` are left out: they are I/O and timing. The `URLSearchParams` encoding of the parameters is not part of this model.
- React batching and stale closures are left out. The state operations are applied one after another, each seeing the previous one's result.
- `toLowerCase` is ASCII-only. Characters are Unicode code points, whereas JavaScript compares strings by UTF-16 code unit. The two orders differ only for characters outside the Basic Multilingual Plane.
- Prices and ratings are integers; a rating is held in tenths. Only their order matters to the code. `NaN` prices or ratings in the data are not modelled; a `NaN` from `parseInt` is.
- The `image`, `type`, `reviews`, `amenities`, `hours`, `monthlyPrice`, `joinFee` and `memberCapacity` fields of a business are read by no modelled code and are left out.
- `processQuery` also computes location, services and vibe flags. They are modelled in `Search.QueryContext` but take no part in matching, as in the code.
- A `Partial<FilterState>` key that is present with the value `undefined` is not modelled: a patch field is either absent or holds a value.
- The `sort` calls in `backend/routes/businesses.js:83` and `src/components/TableView.tsx:26` are modelled on values: the result is the stable sort of the list. Sorting in place and aliasing are not captured. The copy at `TableView.tsx:26` exists so the input is not mutated; a value-level model has nothing to mutate.
- `CompareFeature.IsBusinessInCompare` and `CompareFeature.CanAddToCompare` are predicates defined directly by their bodies. They carry no contract of their own, and `CompareFeature.CanCompareIffFull` relates them. The same holds for the other definitions in the table whose rows describe the definition (`Reduce`, `ApplyPatch`, `InitialState`, `SetFiltersAction`, `Passes`, `Given`, `ContextMatch`, `MentionsAny`, `SearchTerm`, `KeepFor`, `Mentions`, `SomeServiceContains`, `FieldLe`, `LexLe`, `Contains`, `Blank`, `Join`, `IntToString`, `ParseInt` and the other definition rows): their partner lemmas carry the properties.
- Numbers are exact unbounded integers. JavaScript numbers are doubles: `String(n)` switches to exponent notation from 1e21, `parseInt` rounds digit strings beyond 2^53, and `parseInt("-0")` is -0. `JsString.IntToString` and `JsString.ParseInt` agree with JavaScript only on safe integers, and `JsString.ParseIntOfIntToString` is stated for the model's integers.
- `useCompare`'s missing-provider error, the vibe list constant, and the rendering in the components are left out.
