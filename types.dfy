/** The records the listing code works on. */
module Types {
  import opened JsString

  /**
   * One fitness business in the directory. `rating` is the published rating
   * in tenths (4.8 is 48): only its order matters to the code.
   */
  datatype Business = Business(
    id: int,
    name: string,
    category: string,
    location: string,
    price: int,
    services: seq<string>,
    vibe: string,
    description: string,
    rating: int)

  /** The filter panel's criteria. */
  datatype FilterState = FilterState(
    category: string,
    minPrice: int,
    maxPrice: int,
    services: seq<string>,
    vibe: string,
    search: string)

  /** Some service of `b`, lower-cased, includes `term`. */
  predicate SomeServiceContains(b: Business, term: string) {
    exists i :: 0 <= i < |b.services| && Contains(Lower(b.services[i]), term)
  }

  /**
   * The six-field text match: `term` is included in the lower-cased name,
   * category, location, description, some service or vibe of `b`.
   */
  predicate Mentions(b: Business, term: string) {
    || Contains(Lower(b.name), term)
    || Contains(Lower(b.category), term)
    || Contains(Lower(b.location), term)
    || Contains(Lower(b.description), term)
    || SomeServiceContains(b, term)
    || Contains(Lower(b.vibe), term)
  }
}
