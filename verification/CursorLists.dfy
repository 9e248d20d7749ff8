/** What a kernel list denotes: its items in order from the end marker, and
    where the list's walking pointer (pxIndex) stands.

    Cursor 0 is the end marker, cursor k > 0 is items[k - 1].  The pointer
    structure that implements these operations is in PointerRings; the
    scheduler uses the operations themselves. */
module CursorLists {

  datatype CList<T> = CList(items: seq<T>, cursor: nat) {
    predicate WellFormed() {
      cursor <= |items|
    }
  }

  function Empty<T>(): CList<T> {
    CList([], 0)
  }

  predicate Distinct<T(==)>(items: seq<T>) {
    forall i, j :: 0 <= i < j < |items| ==> items[i] != items[j]
  }

  function IndexOf<T(==)>(items: seq<T>, x: T): (i: nat)
    requires x in items
    ensures i < |items| && items[i] == x && x !in items[..i]
  {
    if items[0] == x then 0 else
      var i := IndexOf(items[1..], x);
      assert items[..i + 1] == [items[0]] + items[1..][..i];
      i + 1
  }

  lemma IndexOfUnique<T>(items: seq<T>, i: nat)
    requires i < |items| && Distinct(items)
    ensures IndexOf(items, items[i]) == i
  {
  }

  lemma IndexOfConcat<T>(a: seq<T>, b: seq<T>, x: T)
    requires x in a || x in b
    ensures IndexOf(a + b, x) == if x in a then IndexOf(a, x) else |a| + IndexOf(b, x)
  {
    if a == [] {
      assert a + b == b;
    } else {
      assert (a + b)[1..] == a[1..] + b;
      if a[0] != x {
        IndexOfConcat(a[1..], b, x);
      }
    }
  }

  function InsertAt<T>(items: seq<T>, k: nat, x: T): (r: seq<T>)
    requires k <= |items|
    ensures |r| == |items| + 1
    ensures forall j :: 0 <= j < |r| ==> r[j] == if j < k then items[j] else if j == k then x else items[j - 1]
  {
    items[..k] + [x] + items[k..]
  }

  function DropAt<T>(items: seq<T>, k: nat): (r: seq<T>)
    requires k < |items|
    ensures |r| == |items| - 1
    ensures forall j :: 0 <= j < |r| ==> r[j] == if j < k then items[j] else items[j + 1]
  {
    items[..k] + items[k + 1..]
  }

  lemma DropAtConcat<T>(a: seq<T>, b: seq<T>, i: nat)
    ensures i < |a| ==> DropAt(a + b, i) == DropAt(a, i) + b
    ensures i < |b| ==> DropAt(a + b, |a| + i) == a + DropAt(b, i)
  {
  }

  // vListInsertEnd: the new item goes just before the cursor, so the cursor
  // comes to it last.
  function InsertEnd<T>(l: CList<T>, x: T): (r: CList<T>)
    requires l.WellFormed()
    ensures r.WellFormed()
  {
    if l.cursor == 0 then CList(InsertAt(l.items, |l.items|, x), 0)
    else CList(InsertAt(l.items, l.cursor - 1, x), l.cursor + 1)
  }

  // vListInsert at the position that the value search finds.
  function InsertBefore<T>(l: CList<T>, k: nat, x: T): (r: CList<T>)
    requires l.WellFormed() && k <= |l.items|
    ensures r.WellFormed()
  {
    CList(InsertAt(l.items, k, x), if l.cursor > k then l.cursor + 1 else l.cursor)
  }

  // uxListRemove of the item at position i: a cursor that stood on the item
  // falls back to the item before it.
  function RemoveAt<T>(l: CList<T>, i: nat): (r: CList<T>)
    requires l.WellFormed() && i < |l.items|
    ensures r.WellFormed()
  {
    CList(DropAt(l.items, i), if l.cursor > i then l.cursor - 1 else l.cursor)
  }

  function Remove<T(==)>(l: CList<T>, x: T): (r: CList<T>)
    requires l.WellFormed() && x in l.items
    ensures r.WellFormed()
  {
    RemoveAt(l, IndexOf(l.items, x))
  }

  // listGET_OWNER_OF_NEXT_ENTRY: advance the cursor, stepping over the end marker.
  function Next<T>(l: CList<T>): (r: CList<T>)
    requires l.WellFormed() && l.items != []
    ensures r.WellFormed() && r.cursor > 0
  {
    l.(cursor := if l.cursor < |l.items| then l.cursor + 1 else 1)
  }

  function Selected<T>(l: CList<T>): T
    requires 0 < l.cursor <= |l.items|
  {
    l.items[l.cursor - 1]
  }

  // What an insertion or a removal does to the elements, as a multiset.
  lemma InsertAtElements<T>(items: seq<T>, k: nat, x: T)
    requires k <= |items|
    ensures multiset(InsertAt(items, k, x)) == multiset(items)[x := multiset(items)[x] + 1]
  {
    assert items == items[..k] + items[k..];
  }

  lemma RemoveElements<T>(l: CList<T>, x: T)
    requires l.WellFormed() && x in l.items
    ensures multiset(Remove(l, x).items) == multiset(l.items)[x := multiset(l.items)[x] - 1]
  {
    var k := IndexOf(l.items, x);
    assert l.items == l.items[..k] + [x] + l.items[k + 1..];
  }

  // ... and as a set, when no item occurs twice.
  lemma InsertAtDistinct<T>(items: seq<T>, k: nat, x: T)
    requires k <= |items| && Distinct(items) && x !in items
    ensures Distinct(InsertAt(items, k, x))
    ensures forall y :: y in InsertAt(items, k, x) <==> y in items || y == x
  {
    var r := InsertAt(items, k, x);
    assert r[k] == x;
    forall y | y in items
      ensures y in r
    {
      var i :| 0 <= i < |items| && items[i] == y;
      assert r[if i < k then i else i + 1] == y;
    }
  }

  lemma DropAtDistinct<T>(items: seq<T>, k: nat)
    requires k < |items| && Distinct(items)
    ensures Distinct(DropAt(items, k))
    ensures forall y :: y in DropAt(items, k) <==> y in items && y != items[k]
  {
    var r := DropAt(items, k);
    forall y | y in items && y != items[k]
      ensures y in r
    {
      var i :| 0 <= i < |items| && items[i] == y;
      assert r[if i < k then i else i - 1] == y;
    }
  }

  // What a map gives along a list, zero where it gives nothing
  function Column<T(==)>(m: map<T, nat>, items: seq<T>): (r: seq<nat>)
    ensures |r| == |items|
    ensures forall i :: 0 <= i < |r| ==> r[i] == if items[i] in m then m[items[i]] else 0
  {
    seq(|items|, i requires 0 <= i < |items| => if items[i] in m then m[items[i]] else 0)
  }

  // ---------------------------------------------------------------------
  // Sorted insertion
  // ---------------------------------------------------------------------

  // The search of vListInsert: behind every leading value that is at most v.
  function InsertPos(values: seq<nat>, v: nat): (k: nat)
    ensures k <= |values|
    ensures forall i :: 0 <= i < k ==> values[i] <= v
    ensures k < |values| ==> values[k] > v
  {
    if values == [] || values[0] > v then 0 else 1 + InsertPos(values[1..], v)
  }

  predicate Sorted(values: seq<nat>) {
    forall i, j :: 0 <= i < j < |values| ==> values[i] <= values[j]
  }

  // On a sorted list the search position is the stable sorted one: everything
  // in front is at most v, everything behind is greater, order is kept.
  lemma InsertKeepsSorted(values: seq<nat>, v: nat)
    requires Sorted(values)
    ensures Sorted(InsertAt(values, InsertPos(values, v), v))
    ensures forall i :: InsertPos(values, v) <= i < |values| ==> values[i] > v
  {
    var k := InsertPos(values, v);
    forall i | k <= i < |values|
      ensures values[i] > v
    {
      assert values[k] <= values[i];
    }
  }

  lemma DropKeepsSorted(values: seq<nat>, k: nat)
    requires k < |values| && Sorted(values)
    ensures Sorted(DropAt(values, k))
  {
  }

  // The position is fixed by those two facts alone.
  lemma InsertPosUnique(values: seq<nat>, v: nat, k: nat)
    requires k <= |values|
    requires forall i :: 0 <= i < k ==> values[i] <= v
    requires k < |values| ==> values[k] > v
    ensures k == InsertPos(values, v)
  {
  }
}
