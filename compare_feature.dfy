/**
 * The `useCompareFeature` hook (`src/hooks/useCompareFeature.ts`): predicates
 * read off a `CompareProvider`, and the toggle built from its add and remove.
 */
module CompareFeature {
  import opened Types
  import opened Seqs
  import opened CompareContext

  /** `isBusinessInCompare`: some selected item carries the id. */
  predicate IsBusinessInCompare(p: CompareProvider, businessId: int)
    reads p
  {
    HasId(p.compareItems, businessId)
  }

  /** `canAddToCompare`: fewer than two items are selected. */
  predicate CanAddToCompare(p: CompareProvider)
    reads p
  {
    |p.compareItems| < 2
  }

  /** `compareCount`: the number of selected items, never above two within the invariant. */
  function CompareCount(p: CompareProvider): (n: nat)
    reads p
    ensures n == |p.compareItems|
    ensures p.Valid() ==> n <= 2
  {
    |p.compareItems|
  }

  /** `canCompare`: exactly two items are selected. */
  predicate CanCompare(p: CompareProvider)
    reads p
  {
    CompareCount(p) == 2
  }

  /** Within the invariant, a full selection is exactly one that can be compared. */
  lemma CanCompareIffFull(p: CompareProvider)
    requires p.Valid()
    ensures CanCompare(p) <==> !CanAddToCompare(p)
    ensures 0 <= CompareCount(p) <= 2
  {
  }

  /** The list `toggleCompare` leaves. */
  function Toggled(items: seq<Business>, b: Business): seq<Business> {
    if HasId(items, b.id) then WithoutId(items, b.id)
    else if |items| < 2 then WithAdded(items, b)
    else items
  }

  /** `toggleCompare`: remove a selected business, otherwise add it if there is room. */
  method ToggleCompare(p: CompareProvider, business: Business)
    modifies p
    ensures p.compareItems == Toggled(old(p.compareItems), business)
    ensures p.showCompareModal == old(p.showCompareModal)
    ensures old(p.Valid()) ==> p.Valid()
  {
    if IsBusinessInCompare(p, business.id) {
      p.RemoveFromCompare(business.id);
    } else if CanAddToCompare(p) {
      p.AddToCompare(business);
    }
  }

  /** Toggling a selected business deselects it and keeps the others in order. */
  lemma ToggleRemovesPresent(items: seq<Business>, b: Business)
    requires HasId(items, b.id)
    ensures !HasId(Toggled(items, b), b.id)
    ensures forall x :: x in Toggled(items, b) <==> x in items && x.id != b.id
    ensures IsSubsequence(Toggled(items, b), items)
  {
    WithoutIdMeaning(items, b.id);
  }

  /** Toggling an unselected business appends it when there is room and otherwise changes nothing. */
  lemma ToggleAbsent(items: seq<Business>, b: Business)
    requires !HasId(items, b.id)
    ensures |items| < 2 ==> Toggled(items, b) == items + [b]
    ensures |items| >= 2 ==> Toggled(items, b) == items
  {
  }

  /** Toggling an unselected business twice gives the selection back. */
  lemma ToggleTwiceRestores(items: seq<Business>, b: Business)
    requires !HasId(items, b.id)
    ensures Toggled(Toggled(items, b), b) == items
  {
    if |items| < 2 {
      WithAddedHasId(items, b);
      RemoveUndoesAdd(items, b);
    }
  }

  /** Toggling keeps the selection's invariant. */
  lemma ToggledBounded(items: seq<Business>, b: Business)
    requires Bounded(items)
    ensures Bounded(Toggled(items, b))
  {
    if HasId(items, b.id) {
      WithoutIdBounded(items, b.id);
    } else {
      WithAddedBounded(items, b);
    }
  }
}
