/**
 * The stable sort of `Array.prototype.sort` with a comparator, over listings.
 * An order `le` says when `a` may come before `b` (the comparator returns a
 * value <= 0). The sort is insertion sort: each element goes in front of the
 * first element it may precede, so elements the order ties keep their input
 * order.
 */
module Sorting {
  import opened Types
  import opened Seqs

  /** `le(a, b)`: `a` may come before `b`. */
  type Order = (Business, Business) -> bool

  /** A comparator consistent enough for `sort`: total and transitive. */
  ghost predicate TotalPreorder(le: Order) {
    && (forall a, b :: le(a, b) || le(b, a))
    && (forall a, b, c :: le(a, b) && le(b, c) ==> le(a, c))
  }

  /** Every element may come before every later one. */
  predicate Sorted(s: seq<Business>, le: Order) {
    forall i, j :: 0 <= i < j < |s| ==> le(s[i], s[j])
  }

  /** The elements the order cannot tell apart from `k`. */
  function TiedWith(k: Business, le: Order): Business -> bool {
    b => le(k, b) && le(b, k)
  }

  /** Place `x` in front of the first element it may precede. */
  function Insert(x: Business, s: seq<Business>, le: Order): (r: seq<Business>)
    ensures multiset(r) == multiset(s) + multiset{x}
  {
    if |s| == 0 then [x]
    else if le(x, s[0]) then [x] + s
    else
      assert s == [s[0]] + s[1..];
      [s[0]] + Insert(x, s[1..], le)
  }

  /** The stable sort of `s` by `le`: a permutation of `s`. */
  function SortBy(s: seq<Business>, le: Order): (r: seq<Business>)
    ensures multiset(r) == multiset(s)
  {
    if |s| == 0 then []
    else
      assert s == [s[0]] + s[1..];
      Insert(s[0], SortBy(s[1..], le), le)
  }

  lemma {:induction false} InsertSorted(x: Business, s: seq<Business>, le: Order)
    requires TotalPreorder(le)
    requires Sorted(s, le)
    ensures Sorted(Insert(x, s, le), le)
  {
    if |s| > 0 && !le(x, s[0]) {
      var rest := Insert(x, s[1..], le);
      InsertSorted(x, s[1..], le);
      forall y | y in rest ensures le(s[0], y) {
        assert y in multiset(rest);
        if y != x {
          assert y in s[1..];
        }
      }
    }
  }

  /** The result of the sort is in order. */
  lemma {:induction false} SortBySorted(s: seq<Business>, le: Order)
    requires TotalPreorder(le)
    ensures Sorted(SortBy(s, le), le)
  {
    if |s| > 0 {
      SortBySorted(s[1..], le);
      InsertSorted(s[0], SortBy(s[1..], le), le);
    }
  }

  /** Under a total preorder, nothing `x` may not precede is tied with what `x` is tied with. */
  lemma NotTiedAfter(le: Order, k: Business, x: Business)
    requires TotalPreorder(le)
    ensures forall y :: TiedWith(k, le)(x) && !le(x, y) ==> !TiedWith(k, le)(y)
  {
    forall y | TiedWith(k, le)(x) && !le(x, y) ensures !TiedWith(k, le)(y) {
      assert le(x, k);
    }
  }

  /** `x` goes past a first element it may not precede. */
  lemma InsertPastFirst(x: Business, s: seq<Business>, le: Order)
    requires |s| > 0 && !le(x, s[0])
    ensures Insert(x, s, le) == [s[0]] + Insert(x, s[1..], le)
  {
  }

  /** Inserting `x` puts it in front of every element tied with it. */
  lemma {:induction false} InsertTies(x: Business, s: seq<Business>, le: Order, k: Business)
    requires forall y :: TiedWith(k, le)(x) && !le(x, y) ==> !TiedWith(k, le)(y)
    ensures Filter(Insert(x, s, le), TiedWith(k, le))
         == (if TiedWith(k, le)(x) then [x] else []) + Filter(s, TiedWith(k, le))
  {
    var tied := TiedWith(k, le);
    if |s| == 0 {
      FilterCons(x, [], tied);
    } else if le(x, s[0]) {
      FilterCons(x, s, tied);
    } else {
      var y, rest := s[0], s[1..];
      var lead := if tied(x) then [x] else [];
      var head := if tied(y) then [y] else [];
      calc {
        Filter(Insert(x, s, le), tied);
        { InsertPastFirst(x, s, le); }
        Filter([y] + Insert(x, rest, le), tied);
        { FilterCons(y, Insert(x, rest, le), tied); }
        head + Filter(Insert(x, rest, le), tied);
        { InsertTies(x, rest, le, k); }
        head + (lead + Filter(rest, tied));
        { assert head == [] || lead == []; }
        lead + (head + Filter(rest, tied));
        { FilterCons(y, rest, tied); assert s == [y] + rest; }
        lead + Filter(s, tied);
      }
    }
  }

  /** Elements the order ties keep their input order. */
  lemma {:induction false} SortByStable(s: seq<Business>, le: Order, k: Business)
    requires TotalPreorder(le)
    ensures Filter(SortBy(s, le), TiedWith(k, le)) == Filter(s, TiedWith(k, le))
  {
    if |s| > 0 {
      SortByStable(s[1..], le, k);
      NotTiedAfter(le, k, s[0]);
      InsertTies(s[0], SortBy(s[1..], le), le, k);
    }
  }

  /** Sorting a sorted list changes nothing, so sorting twice is sorting once. */
  lemma {:induction false} SortByOfSorted(s: seq<Business>, le: Order)
    requires Sorted(s, le)
    ensures SortBy(s, le) == s
  {
    if |s| > 0 {
      SortByOfSorted(s[1..], le);
      if |s| > 1 {
        assert le(s[0], s[1]);
      }
      assert [s[0]] + s[1..] == s;
    }
  }

  /** Two sorted arrangements with the same tie groups start with the same element. */
  lemma SameFirst(r1: seq<Business>, r2: seq<Business>, le: Order)
    requires TotalPreorder(le)
    requires Sorted(r1, le) && Sorted(r2, le)
    requires |r1| > 0 && |r2| > 0
    requires forall k :: Filter(r1, TiedWith(k, le)) == Filter(r2, TiedWith(k, le))
    ensures r1[0] == r2[0]
  {
    var a, b := r1[0], r2[0];
    assert b in r1 by {
      assert b in Filter(r2, TiedWith(b, le));
    }
    assert a in r2 by {
      assert a in Filter(r1, TiedWith(a, le));
    }
    var ta := TiedWith(a, le);
    assert Filter(r1, ta)[0] == a;
    assert Filter(r2, ta)[0] == b;
    assert Filter(r1, ta) == Filter(r2, ta);
  }

  /** Dropping a common first element keeps two equal filterings equal. */
  lemma FilterDropFirst(r1: seq<Business>, r2: seq<Business>, p: Business -> bool)
    requires |r1| > 0 && |r2| > 0 && r1[0] == r2[0]
    requires Filter(r1, p) == Filter(r2, p)
    ensures Filter(r1[1..], p) == Filter(r2[1..], p)
  {
    var h := if p(r1[0]) then [r1[0]] else [];
    assert Filter(r1, p) == h + Filter(r1[1..], p);
    assert Filter(r2, p) == h + Filter(r2[1..], p);
    assert Filter(r1[1..], p) == Filter(r1, p)[|h|..];
    assert Filter(r2[1..], p) == Filter(r2, p)[|h|..];
  }

  /** Every element is tied with itself. */
  lemma SelfTied(x: Business, s: seq<Business>, le: Order)
    requires TotalPreorder(le)
    requires x in s
    ensures x in Filter(s, TiedWith(x, le))
  {
  }

  /**
   * A sorted arrangement that keeps every group of tied elements in the same
   * order is unique: any stable sort of the listings gives what `SortBy` gives.
   */
  lemma {:induction false} StableArrangementUnique(r1: seq<Business>, r2: seq<Business>, le: Order)
    requires TotalPreorder(le)
    requires Sorted(r1, le) && Sorted(r2, le)
    requires forall k :: Filter(r1, TiedWith(k, le)) == Filter(r2, TiedWith(k, le))
    ensures r1 == r2
    decreases |r1|
  {
    if |r1| == 0 && |r2| > 0 {
      SelfTied(r2[0], r2, le);
      assert false;
    } else if |r1| > 0 && |r2| == 0 {
      SelfTied(r1[0], r1, le);
      assert false;
    } else if |r1| > 0 && |r2| > 0 {
      SameFirst(r1, r2, le);
      forall k ensures Filter(r1[1..], TiedWith(k, le)) == Filter(r2[1..], TiedWith(k, le)) {
        assert Filter(r1, TiedWith(k, le)) == Filter(r2, TiedWith(k, le));
        FilterDropFirst(r1, r2, TiedWith(k, le));
      }
      StableArrangementUnique(r1[1..], r2[1..], le);
      assert r1 == [r1[0]] + r1[1..] && r2 == [r2[0]] + r2[1..];
    }
  }

  /** Any sorted, tie-order-keeping arrangement of `s` is `SortBy(s, le)`. */
  lemma IsTheStableSort(s: seq<Business>, r: seq<Business>, le: Order)
    requires TotalPreorder(le)
    requires Sorted(r, le)
    requires forall k :: Filter(r, TiedWith(k, le)) == Filter(s, TiedWith(k, le))
    ensures r == SortBy(s, le)
  {
    SortBySorted(s, le);
    forall k ensures Filter(r, TiedWith(k, le)) == Filter(SortBy(s, le), TiedWith(k, le)) {
      SortByStable(s, le, k);
    }
    StableArrangementUnique(r, SortBy(s, le), le);
  }
}
