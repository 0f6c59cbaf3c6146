/**
 * The two-slot compare selection of `CompareProvider`
 * (`src/context/CompareContext.tsx`): a list of at most two businesses with
 * distinct ids and a flag that shows the comparison modal.
 */
module CompareContext {
  import opened Types
  import opened Seqs

  /** Some item carries the id. */
  predicate HasId(items: seq<Business>, id: int) {
    exists i :: 0 <= i < |items| && items[i].id == id
  }

  /** No two items share an id. */
  predicate DistinctIds(items: seq<Business>) {
    forall i, j :: 0 <= i < j < |items| ==> items[i].id != items[j].id
  }

  /** The selection's invariant: at most two items, distinct ids. */
  predicate Bounded(items: seq<Business>) {
    |items| <= 2 && DistinctIds(items)
  }

  /** The callback of `compareItems.filter(item => item.id !== businessId)`. */
  function IdIsNot(id: int): Business -> bool {
    (b: Business) => b.id != id
  }

  /** The list `addToCompare` leaves: appended only when there is room and the id is new. */
  function WithAdded(items: seq<Business>, b: Business): seq<Business> {
    if |items| < 2 && !HasId(items, b.id) then items + [b] else items
  }

  /** The list `removeFromCompare` leaves: every item with the id dropped. */
  function WithoutId(items: seq<Business>, id: int): seq<Business> {
    Filter(items, IdIsNot(id))
  }

  /** Adding keeps the invariant. */
  lemma WithAddedBounded(items: seq<Business>, b: Business)
    requires Bounded(items)
    ensures Bounded(WithAdded(items, b))
  {
    if |items| < 2 && !HasId(items, b.id) {
      var r := items + [b];
      forall i, j | 0 <= i < j < |r| ensures r[i].id != r[j].id {
        assert r[i] == items[i];
      }
    }
  }

  /** After an add the id is present exactly when it was already, or there was room. */
  lemma WithAddedHasId(items: seq<Business>, b: Business)
    ensures HasId(WithAdded(items, b), b.id) <==> HasId(items, b.id) || |items| < 2
  {
    var r := WithAdded(items, b);
    if HasId(items, b.id) {
      var i :| 0 <= i < |items| && items[i].id == b.id;
      assert r[i] == items[i];
    } else if |items| < 2 {
      assert r[|items|] == b;
    }
  }

  /** Adding the same business twice is adding it once. */
  lemma WithAddedIdempotent(items: seq<Business>, b: Business)
    ensures WithAdded(WithAdded(items, b), b) == WithAdded(items, b)
  {
    if |items| < 2 && !HasId(items, b.id) {
      WithAddedHasId(items, b);
    }
  }

  /** Removal drops exactly the items with the id and keeps the others in order. */
  lemma WithoutIdMeaning(items: seq<Business>, id: int)
    ensures !HasId(WithoutId(items, id), id)
    ensures forall x :: x in WithoutId(items, id) <==> x in items && x.id != id
    ensures IsSubsequence(WithoutId(items, id), items)
  {
    var r := WithoutId(items, id);
    forall i | 0 <= i < |r| ensures r[i].id != id {
      assert r[i] in r;
    }
    FilterIsSubsequence(items, IdIsNot(id));
  }

  /** Removal keeps the invariant. */
  lemma WithoutIdBounded(items: seq<Business>, id: int)
    requires Bounded(items)
    ensures Bounded(WithoutId(items, id))
  {
    WithoutIdDistinct(items, id);
  }

  /** A filtered list of distinct ids still has distinct ids. */
  lemma {:induction false} WithoutIdDistinct(items: seq<Business>, id: int)
    requires DistinctIds(items)
    ensures DistinctIds(WithoutId(items, id))
    decreases |items|
  {
    if |items| > 0 {
      var rest := items[1..];
      assert DistinctIds(rest) by {
        forall i, j | 0 <= i < j < |rest| ensures rest[i].id != rest[j].id {
          assert rest[i] == items[i + 1] && rest[j] == items[j + 1];
        }
      }
      WithoutIdDistinct(rest, id);
      var tail := WithoutId(rest, id);
      if items[0].id != id {
        var r := [items[0]] + tail;
        assert r == WithoutId(items, id);
        forall x | x in tail ensures x.id != items[0].id {
          var k :| 0 <= k < |rest| && rest[k] == x;
          assert items[k + 1] == x;
        }
        forall i, j | 0 <= i < j < |r| ensures r[i].id != r[j].id {
          if i == 0 {
            assert r[j] == tail[j - 1] && r[j] in tail;
          } else {
            assert r[i] == tail[i - 1] && r[j] == tail[j - 1];
          }
        }
      }
    }
  }

  /** Adding a new business and then removing its id gives the list back. */
  lemma RemoveUndoesAdd(items: seq<Business>, b: Business)
    requires !HasId(items, b.id)
    ensures WithoutId(WithAdded(items, b), b.id) == items
  {
    forall x | x in items ensures IdIsNot(b.id)(x) {
      var i :| 0 <= i < |items| && items[i] == x;
    }
    FilterAllPass(items, IdIsNot(b.id));
    if |items| < 2 {
      FilterAppend(items, [b], IdIsNot(b.id));
      assert Filter([b], IdIsNot(b.id)) == [];
    }
  }

  /** `CompareProvider`'s two state cells. */
  class CompareProvider {
    var compareItems: seq<Business>
    var showCompareModal: bool

    predicate Valid()
      reads this
    {
      Bounded(compareItems)
    }

    /** `useState<Business[]>([])` and `useState<boolean>(false)`. */
    constructor()
      ensures compareItems == [] && !showCompareModal
      ensures Valid()
    {
      compareItems := [];
      showCompareModal := false;
    }

    /** `addToCompare`: append when fewer than two items and the id is new. */
    method AddToCompare(business: Business)
      modifies this
      ensures compareItems == WithAdded(old(compareItems), business)
      ensures showCompareModal == old(showCompareModal)
      ensures old(Valid()) ==> Valid()
    {
      if |compareItems| < 2 && !HasId(compareItems, business.id) {
        compareItems := compareItems + [business];
      }
      if old(Valid()) {
        WithAddedBounded(old(compareItems), business);
      }
    }

    /** `removeFromCompare`: drop every item with the id; the modal flag stays as it is. */
    method RemoveFromCompare(businessId: int)
      modifies this
      ensures compareItems == WithoutId(old(compareItems), businessId)
      ensures showCompareModal == old(showCompareModal)
      ensures old(Valid()) ==> Valid()
    {
      compareItems := Filter(compareItems, IdIsNot(businessId));
      if old(Valid()) {
        WithoutIdBounded(old(compareItems), businessId);
      }
    }

    /** `clearCompare`: empty the list and hide the modal, from any state. */
    method ClearCompare()
      modifies this
      ensures compareItems == [] && !showCompareModal
      ensures Valid()
    {
      compareItems := [];
      showCompareModal := false;
    }

    /** `openCompareModal`: show the modal only when exactly two items are selected. */
    method OpenCompareModal()
      modifies this
      ensures compareItems == old(compareItems)
      ensures showCompareModal == (old(showCompareModal) || |compareItems| == 2)
    {
      if |compareItems| == 2 {
        showCompareModal := true;
      }
    }

    /** The exported setter `setShowCompareModal`: no guard. */
    method SetShowCompareModal(show: bool)
      modifies this
      ensures compareItems == old(compareItems)
      ensures showCompareModal == show
    {
      showCompareModal := show;
    }
  }

  /**
   * Selecting two businesses, opening the modal and removing one leaves the
   * modal flag set with a single item selected.
   */
  method ModalOutlivesPair(a: Business, b: Business) returns (p: CompareProvider)
    requires a.id != b.id
    ensures p.showCompareModal && |p.compareItems| == 1 && p.Valid()
  {
    p := new CompareProvider();
    p.AddToCompare(a);
    assert !HasId([a], b.id);
    p.AddToCompare(b);
    p.OpenCompareModal();
    p.RemoveFromCompare(a.id);
    assert p.compareItems == Filter([a, b], IdIsNot(a.id));
    assert Filter([a, b], IdIsNot(a.id)) == [b];
  }
}
