/**
 * The table view's column sort (`src/components/TableView.tsx`): the
 * `sortField`/`sortDirection` state cells, the header click handler and the
 * sorted copy the table renders.
 */
module TableView {
  import opened Wrappers
  import opened JsString
  import opened Types
  import opened Seqs
  import opened Sorting

  /** The columns whose headers call `handleSort`. */
  datatype SortField = Name | Category | Location | Price | Vibe | Rating

  datatype Direction = Asc | Desc

  /** `a <= b` on strings: code unit by code unit, a prefix first. */
  predicate LexLe(a: string, b: string) {
    |a| == 0 || (|b| > 0 && (a[0] < b[0] || (a[0] == b[0] && LexLe(a[1..], b[1..]))))
  }

  lemma {:induction false} LexLeTotal(a: string, b: string)
    ensures LexLe(a, b) || LexLe(b, a)
    decreases |a|
  {
    if |a| > 0 && |b| > 0 && a[0] == b[0] {
      LexLeTotal(a[1..], b[1..]);
    }
  }

  lemma {:induction false} LexLeTransitive(a: string, b: string, c: string)
    requires LexLe(a, b) && LexLe(b, c)
    ensures LexLe(a, c)
    decreases |a|
  {
    if |a| > 0 && a[0] == b[0] && b[0] == c[0] {
      LexLeTransitive(a[1..], b[1..], c[1..]);
    }
  }

  /** The column's value, lower-cased when it is a string. */
  predicate FieldLe(field: SortField, a: Business, b: Business) {
    match field
    case Name => LexLe(Lower(a.name), Lower(b.name))
    case Category => LexLe(Lower(a.category), Lower(b.category))
    case Location => LexLe(Lower(a.location), Lower(b.location))
    case Price => a.price <= b.price
    case Vibe => LexLe(Lower(a.vibe), Lower(b.vibe))
    case Rating => a.rating <= b.rating
  }

  /** When the comparator lets `a` come before `b`: it does not return 1. */
  function ColumnOrder(field: SortField, direction: Direction): Order {
    (a: Business, b: Business) => if direction == Asc then FieldLe(field, a, b) else FieldLe(field, b, a)
  }

  lemma FieldLeTotal(field: SortField, a: Business, b: Business)
    ensures FieldLe(field, a, b) || FieldLe(field, b, a)
  {
    match field
    case Name => LexLeTotal(Lower(a.name), Lower(b.name));
    case Category => LexLeTotal(Lower(a.category), Lower(b.category));
    case Location => LexLeTotal(Lower(a.location), Lower(b.location));
    case Price =>
    case Vibe => LexLeTotal(Lower(a.vibe), Lower(b.vibe));
    case Rating =>
  }

  lemma FieldLeTransitive(field: SortField, a: Business, b: Business, c: Business)
    requires FieldLe(field, a, b) && FieldLe(field, b, c)
    ensures FieldLe(field, a, c)
  {
    match field
    case Name => LexLeTransitive(Lower(a.name), Lower(b.name), Lower(c.name));
    case Category => LexLeTransitive(Lower(a.category), Lower(b.category), Lower(c.category));
    case Location => LexLeTransitive(Lower(a.location), Lower(b.location), Lower(c.location));
    case Price =>
    case Vibe => LexLeTransitive(Lower(a.vibe), Lower(b.vibe), Lower(c.vibe));
    case Rating =>
  }

  /** Every column and direction gives a comparator `sort` can use. */
  lemma ColumnOrderIsTotalPreorder(field: SortField, direction: Direction)
    ensures TotalPreorder(ColumnOrder(field, direction))
  {
    var le := ColumnOrder(field, direction);
    forall a, b ensures le(a, b) || le(b, a) {
      FieldLeTotal(field, a, b);
    }
    forall a, b, c | le(a, b) && le(b, c) ensures le(a, c) {
      if direction == Asc {
        FieldLeTransitive(field, a, b, c);
      } else {
        FieldLeTransitive(field, c, b, a);
      }
    }
  }

  /** The table's two sort state cells. */
  class TableSort {
    var sortField: Option<SortField>
    var sortDirection: Direction

    /** `useState(null)` and `useState('asc')`. */
    constructor()
      ensures sortField == None && sortDirection == Asc
    {
      sortField := None;
      sortDirection := Asc;
    }

    /** `handleSort(field)`: the same column flips the direction, another starts ascending. */
    method HandleSort(field: SortField)
      modifies this
      ensures old(sortField) == Some(field) ==>
        sortField == old(sortField) && sortDirection == (if old(sortDirection) == Asc then Desc else Asc)
      ensures old(sortField) != Some(field) ==> sortField == Some(field) && sortDirection == Asc
    {
      if sortField == Some(field) {
        sortDirection := if sortDirection == Asc then Desc else Asc;
      } else {
        sortField := Some(field);
        sortDirection := Asc;
      }
    }

    /**
     * `sortedBusinesses`: the list itself with no column chosen, else a
     * sorted copy in which the column never goes the wrong way.
     */
    function SortedBusinesses(businesses: seq<Business>): (r: seq<Business>)
      reads this
      ensures sortField == None ==> r == businesses
      ensures multiset(r) == multiset(businesses)
      ensures sortField.Some? ==> Sorted(r, ColumnOrder(sortField.value, sortDirection))
    {
      match sortField
      case None => businesses
      case Some(field) =>
        ColumnOrderIsTotalPreorder(field, sortDirection);
        SortBySorted(businesses, ColumnOrder(field, sortDirection));
        SortBy(businesses, ColumnOrder(field, sortDirection))
    }
  }

  /** Businesses equal in the chosen column keep their relative order. */
  lemma SortedBusinessesStable(t: TableSort, businesses: seq<Business>, k: Business)
    requires t.sortField.Some?
    ensures Filter(t.SortedBusinesses(businesses), TiedWith(k, ColumnOrder(t.sortField.value, t.sortDirection)))
         == Filter(businesses, TiedWith(k, ColumnOrder(t.sortField.value, t.sortDirection)))
  {
    ColumnOrderIsTotalPreorder(t.sortField.value, t.sortDirection);
    SortByStable(businesses, ColumnOrder(t.sortField.value, t.sortDirection), k);
  }

  /** Ascending, each row's column value is at most the next row's; descending, at least. */
  lemma SortedBusinessesAdjacent(t: TableSort, businesses: seq<Business>, i: nat)
    requires t.sortField.Some?
    requires i + 1 < |t.SortedBusinesses(businesses)|
    ensures var r := t.SortedBusinesses(businesses);
      if t.sortDirection == Asc then FieldLe(t.sortField.value, r[i], r[i + 1])
      else FieldLe(t.sortField.value, r[i + 1], r[i])
  {
    var r := t.SortedBusinesses(businesses);
    assert ColumnOrder(t.sortField.value, t.sortDirection)(r[i], r[i + 1]);
  }
}
