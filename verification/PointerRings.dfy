/** list.c: the circular doubly linked list behind every kernel list.

    A list owns an end marker whose value is the largest tick, so that it sorts
    last, and a walking pointer that is left on some node of the ring.  Each
    operation is proved against the operation of the same name on the list it
    denotes (CursorLists). */
module PointerRings {
  import opened Ticks
  import opened CursorLists

  // ListItem_t, without its owner
  class ListItem {
    var value: Tick
    var next: ListItem?
    var previous: ListItem?
    var container: List?

    // vListInitialiseItem
    constructor (value: Tick)
      ensures this.value == value && container == null
    {
      this.value := value;
      container := null;
    }
  }

  // Node 0 of a ring is its end marker, node i its i-th item.
  ghost function Node(end: ListItem, items: seq<ListItem>, i: int): ListItem
    requires 0 <= i <= |items|
  {
    if i == 0 then end else items[i - 1]
  }

  function Succ(n: nat, i: nat): nat {
    if i < n then i + 1 else 0
  }

  function Pred(n: nat, i: nat): int {
    if i == 0 then n else i - 1
  }

  // No item occurs twice: pos tells where each one is.
  ghost predicate Placed(items: seq<ListItem>, pos: map<ListItem, nat>) {
    forall i {:trigger items[i]} :: 0 <= i < |items| ==> items[i] in pos && pos[items[i]] == i
  }

  // Next and previous are mutually inverse all the way round.
  ghost predicate Linked(end: ListItem, items: seq<ListItem>)
    reads end, items
  {
    && (forall i {:trigger Node(end, items, i).next} ::
          0 <= i <= |items| ==> Node(end, items, i).next == Node(end, items, Succ(|items|, i)))
    && (forall i {:trigger Node(end, items, i).previous} ::
          0 <= i <= |items| ==> Node(end, items, i).previous == Node(end, items, Pred(|items|, i)))
  }

  // Every item records the list it is on.
  ghost predicate Owned(items: seq<ListItem>, owner: List)
    reads items
  {
    forall i {:trigger items[i].container} :: 0 <= i < |items| ==> items[i].container == owner
  }

  ghost function PosAfterInsert(pos: map<ListItem, nat>, k: nat, item: ListItem): map<ListItem, nat> {
    (map x | x in pos :: if pos[x] >= k then pos[x] + 1 else pos[x])[item := k]
  }

  ghost function PosAfterDrop(pos: map<ListItem, nat>, k: nat): map<ListItem, nat> {
    map x | x in pos && pos[x] != k :: if pos[x] > k then pos[x] - 1 else pos[x]
  }

  lemma PlacedInsert(items: seq<ListItem>, pos: map<ListItem, nat>, k: nat, item: ListItem)
    requires k <= |items| && Placed(items, pos) && item !in items
    ensures Placed(InsertAt(items, k, item), PosAfterInsert(pos, k, item))
  {
  }

  lemma PlacedDrop(items: seq<ListItem>, pos: map<ListItem, nat>, k: nat)
    requires k < |items| && Placed(items, pos)
    ensures Placed(DropAt(items, k), PosAfterDrop(pos, k))
  {
  }

  lemma OwnedInsert(items: seq<ListItem>, k: nat, item: ListItem, owner: List)
    requires k <= |items| && Owned(items, owner) && item.container == owner
    ensures Owned(InsertAt(items, k, item), owner)
  {
    var r := InsertAt(items, k, item);
    forall i | 0 <= i < |r|
      ensures r[i].container == owner
    {
      assert i == k || items[if i < k then i else i - 1].container == owner;
    }
  }

  lemma OwnedDrop(items: seq<ListItem>, k: nat, owner: List)
    requires k < |items|
    requires forall i {:trigger items[i].container} :: 0 <= i < |items| && i != k ==> items[i].container == owner
    ensures Owned(DropAt(items, k), owner)
  {
    var r := DropAt(items, k);
    forall i | 0 <= i < |r|
      ensures r[i].container == owner
    {
      assert items[if i < k then i else i + 1].container == owner;
    }
  }

  lemma NodesDiffer(end: ListItem, items: seq<ListItem>, pos: map<ListItem, nat>)
    requires Placed(items, pos) && end !in items
    ensures forall i, j {:trigger Node(end, items, i), Node(end, items, j)} ::
              0 <= i <= |items| && 0 <= j <= |items| && i != j ==> Node(end, items, i) != Node(end, items, j)
  {
  }

  // The pointers a splice leaves alone: all those not listed as changed.
  ghost predicate LinkedBut(end: ListItem, items: seq<ListItem>, noNext: set<int>, noPrevious: set<int>)
    reads end, items
  {
    && (forall i {:trigger Node(end, items, i).next} ::
          0 <= i <= |items| && i !in noNext ==> Node(end, items, i).next == Node(end, items, Succ(|items|, i)))
    && (forall i {:trigger Node(end, items, i).previous} ::
          0 <= i <= |items| && i !in noPrevious ==> Node(end, items, i).previous == Node(end, items, Pred(|items|, i)))
  }

  // A node spliced in behind node k, with its four pointers written, closes the ring.
  lemma SplicedIn(end: ListItem, items: seq<ListItem>, k: nat, item: ListItem)
    requires k <= |items| && LinkedBut(end, items, {k}, {Succ(|items|, k)})
    requires item.previous == Node(end, items, k) && item.next == Node(end, items, Succ(|items|, k))
    requires Node(end, items, k).next == item && Node(end, items, Succ(|items|, k)).previous == item
    ensures Linked(end, InsertAt(items, k, item))
  {
    var r := InsertAt(items, k, item);
    forall i | 0 <= i <= |r|
      ensures Node(end, r, i).next == Node(end, r, Succ(|r|, i))
    {
      var j := if i <= k then i else i - 1;
      assert j == k || Node(end, items, j).next == Node(end, items, Succ(|items|, j));
    }
    forall i | 0 <= i <= |r|
      ensures Node(end, r, i).previous == Node(end, r, Pred(|r|, i))
    {
      var j := if i <= k then i else i - 1;
      assert j == Succ(|items|, k) || Node(end, items, j).previous == Node(end, items, Pred(|items|, j));
    }
  }

  // Taking node k + 1 out, its two neighbours relinked, closes the ring.
  lemma SplicedOut(end: ListItem, items: seq<ListItem>, k: nat)
    requires k < |items| && LinkedBut(end, items, {k, k + 1}, {k + 1, Succ(|items|, k + 1)})
    requires Node(end, items, k).next == Node(end, items, Succ(|items|, k + 1))
    requires Node(end, items, Succ(|items|, k + 1)).previous == Node(end, items, k)
    ensures Linked(end, DropAt(items, k))
  {
    var r := DropAt(items, k);
    forall i | 0 <= i <= |r|
      ensures Node(end, r, i).next == Node(end, r, Succ(|r|, i))
    {
      var j := if i <= k then i else i + 1;
      assert j == k || Node(end, items, j).next == Node(end, items, Succ(|items|, j));
    }
    forall i | 0 <= i <= |r|
      ensures Node(end, r, i).previous == Node(end, r, Pred(|r|, i))
    {
      var j := if i <= k then i else i + 1;
      assert j == Succ(|items|, k + 1) || Node(end, items, j).previous == Node(end, items, Pred(|items|, j));
    }
  }

  // The walking pointer stays on its node.
  lemma NodeAfterInsert(end: ListItem, items: seq<ListItem>, k: nat, item: ListItem, cursor: nat)
    requires k <= |items| && cursor <= |items|
    ensures Node(end, InsertAt(items, k, item), if cursor > k then cursor + 1 else cursor) == Node(end, items, cursor)
  {
  }

  // The walking pointer stays on its node, or falls back to the one before.
  lemma NodeAfterDrop(end: ListItem, items: seq<ListItem>, k: nat, cursor: nat)
    requires k < |items| && cursor <= |items|
    ensures Node(end, DropAt(items, k), if cursor > k then cursor - 1 else cursor)
         == Node(end, items, if cursor == k + 1 then k else cursor)
  {
  }

  // List_t
  class List {
    const end: ListItem
    var index: ListItem
    var count: nat
    // the items in order from the end marker, and where index stands
    ghost var items: seq<ListItem>
    ghost var pos: map<ListItem, nat>
    ghost var cursor: nat

    ghost predicate Valid()
      reads this, end, items
    {
      && Placed(items, pos) && Linked(end, items) && Owned(items, this)
      && end.container == null && end.value == MAX_DELAY
      && count == |items|
      && cursor <= |items| && index == Node(end, items, cursor)
    }

    ghost function Contents(): (l: CList<ListItem>)
      reads this, end, items
      requires Valid()
      ensures l.WellFormed()
    {
      CList(items, cursor)
    }

    ghost function Values(): (r: seq<nat>)
      reads this, items
      ensures |r| == |items|
    {
      seq(|items|, i requires 0 <= i < |items| reads this, items => items[i].value as nat)
    }

    // vListInitialise
    constructor ()
      ensures Valid() && fresh(end) && Contents() == Empty()
    {
      var marker := new ListItem(MAX_DELAY);
      end := marker;
      index := marker;
      count := 0;
      items, pos, cursor := [], map[], 0;
      new;
      end.next := end;
      end.previous := end;
    }

    // No item is on the list twice.
    lemma ItemsAreDistinct()
      requires Valid()
      ensures Distinct(items)
    {
      hide Linked, Owned;
    }

    lemma NotOnList(item: ListItem)
      requires Valid() && item.container == null
      ensures item !in items
    {
    }

    lemma OnCursor(k: nat)
      requires Valid() && k < |items|
      ensures index == items[k] <==> cursor == k + 1
    {
      NotOnList(end);
      NodesDiffer(end, items, pos);
      assert items[k] == Node(end, items, k + 1);
    }

    // Write the four pointers that link an item in behind node k.
    method Splice(node: ListItem, ghost k: nat, item: ListItem)
      requires Valid() && item.container == null && item != end
      requires k <= |items| && node == Node(end, items, k)
      modifies end`next, end`previous, items`next, items`previous, item`next, item`previous, item`container
      ensures Linked(end, InsertAt(items, k, item)) && Owned(InsertAt(items, k, item), this)
    {
      ghost var after := Node(end, items, Succ(|items|, k));
      assert end !in items && item !in items;
      NodesDiffer(end, items, pos);
      WriteLinks(node, item, this);
      forall i | 0 <= i <= |items| && i != k
        ensures Node(end, items, i).next == Node(end, items, Succ(|items|, i))
      {
        assert Node(end, items, i) != node && Node(end, items, i) != item;
        assert old(Node(end, items, i).next) == Node(end, items, Succ(|items|, i));
      }
      forall i | 0 <= i <= |items| && i != Succ(|items|, k)
        ensures Node(end, items, i).previous == Node(end, items, Pred(|items|, i))
      {
        assert Node(end, items, i) != after && Node(end, items, i) != item;
        assert old(Node(end, items, i).previous) == Node(end, items, Pred(|items|, i));
      }
      SplicedIn(end, items, k, item);
      OwnedInsert(items, k, item, this);
    }

    // The tail shared by both insertions
    method LinkBehind(node: ListItem, ghost k: nat, item: ListItem)
      requires Valid() && item.container == null && item != end
      requires k <= |items| && node == Node(end, items, k)
      modifies this, end`next, end`previous, items`next, items`previous, item`next, item`previous, item`container
      ensures Valid() && index == old(index)
      ensures items == InsertAt(old(items), k, item)
      ensures cursor == if old(cursor) > k then old(cursor) + 1 else old(cursor)
    {
      hide Linked, Owned, Placed, Node, InsertAt;
      NotOnList(item);
      PlacedInsert(items, pos, k, item);
      NodeAfterInsert(end, items, k, item, cursor);
      Splice(node, k, item);
      items, pos := InsertAt(items, k, item), PosAfterInsert(pos, k, item);
      cursor := if cursor > k then cursor + 1 else cursor;
      count := count + 1;
    }

    // vListInsertEnd
    method InsertEnd(item: ListItem)
      requires Valid() && item.container == null && item != end
      modifies this, end`next, end`previous, items`next, items`previous, item`next, item`previous, item`container
      ensures Valid() && Contents() == CursorLists.InsertEnd(old(Contents()), item)
    {
      ghost var k := Pred(|items|, cursor);
      assert Node(end, items, cursor).previous == Node(end, items, k);
      LinkBehind(index.previous, k, item);
    }

    // vListInsert
    method Insert(item: ListItem)
      requires Valid() && item.container == null && item != end
      modifies this, end`next, end`previous, items`next, items`previous, item`next, item`previous, item`container
      ensures Valid()
      ensures Contents() == InsertBefore(old(Contents()), InsertPos(old(Values()), old(item.value)), item)
    {
      ghost var values := Values();
      var place: ListItem;
      ghost var k;
      if item.value == MAX_DELAY {
        assert Node(end, items, 0).previous == Node(end, items, |items|);
        place, k := end.previous, |items|;
      } else {
        place, k := end, 0;
        assert Node(end, items, k).next == Node(end, items, Succ(|items|, k));
        while place.next.value <= item.value
          invariant k <= |items| && place == Node(end, items, k)
          invariant place.next == Node(end, items, Succ(|items|, k))
          invariant forall i :: 0 <= i < k ==> values[i] <= item.value
          decreases |items| - k
        {
          assert k < |items| && values[k] == place.next.value;
          place, k := place.next, k + 1;
          assert Node(end, items, k).next == Node(end, items, Succ(|items|, k));
        }
        assert k < |items| ==> values[k] == place.next.value;
      }
      InsertPosUnique(values, item.value, k);
      LinkBehind(place, k, item);
    }

    // Relink the neighbours of an item round it.
    method UnlinkAt(ghost k: nat, item: ListItem)
      requires Valid() && k < |items| && item == items[k]
      modifies `items, `pos, end`next, end`previous, items`next, items`previous, item`container
      ensures Placed(items, pos) && Linked(end, items) && Owned(items, this)
      ensures items == DropAt(old(items), k)
      ensures item.container == null && item.previous == Node(end, items, k)
    {
      ghost var was := items;
      assert item.container == this;
      assert end !in items;
      NodesDiffer(end, items, pos);
      PlacedDrop(items, pos, k);
      assert item == Node(end, items, k + 1);
      ghost var before, after := Node(end, items, k), Node(end, items, Succ(|items|, k + 1));
      assert item.next == after && item.previous == before;
      Unlink(item);
      forall i | 0 <= i <= |was| && i != k && i != k + 1
        ensures Node(end, was, i).next == Node(end, was, Succ(|was|, i))
      {
        assert Node(end, was, i) != before;
        assert old(Node(end, was, i).next) == Node(end, was, Succ(|was|, i));
      }
      forall i | 0 <= i <= |was| && i != k + 1 && i != Succ(|was|, k + 1)
        ensures Node(end, was, i).previous == Node(end, was, Pred(|was|, i))
      {
        assert Node(end, was, i) != after;
        assert old(Node(end, was, i).previous) == Node(end, was, Pred(|was|, i));
      }
      SplicedOut(end, was, k);
      OwnedDrop(was, k, this);
      items, pos := DropAt(items, k), PosAfterDrop(pos, k);
    }

    // uxListRemove, for the list that the item's container field names
    method Remove(item: ListItem) returns (remaining: nat)
      requires Valid() && item in items
      modifies this, end`next, end`previous, items`next, items`previous, item`container
      ensures Valid() && item.container == null
      ensures Contents() == CursorLists.Remove(old(Contents()), item)
      ensures remaining == |items|
    {
      hide Linked, Owned, Placed, Node, DropAt, IndexOf;
      ghost var k := IndexOf(items, item);
      OnCursor(k);
      NodeAfterDrop(end, items, k, cursor);
      UnlinkAt(k, item);
      if index == item {
        index := item.previous;
      }
      cursor := if cursor > k then cursor - 1 else cursor;
      count := count - 1;
      remaining := count;
    }

    // listGET_OWNER_OF_NEXT_ENTRY
    method NextEntry() returns (item: ListItem)
      requires Valid() && items != []
      modifies this`index, this`cursor
      ensures Valid() && Contents() == Next(old(Contents())) && item == Selected(Contents())
    {
      assert Node(end, items, cursor).next == Node(end, items, Succ(|items|, cursor));
      index, cursor := index.next, Succ(|items|, cursor);
      if index == end {
        assert cursor == 0 by {
          assert end !in items;
        }
        assert Node(end, items, 0).next == Node(end, items, Succ(|items|, 0));
        index, cursor := index.next, 1;
      }
      item := index;
    }
  }

  method WriteLinks(node: ListItem, item: ListItem, owner: List)
    requires node.next != null && item != node && item != node.next
    modifies node`next, node.next`previous, item`next, item`previous, item`container
    ensures item.next == old(node.next) && item.next.previous == item
    ensures item.previous == node && node.next == item
    ensures item.container == owner
  {
    item.next := node.next;
    item.next.previous := item;
    item.previous := node;
    node.next := item;
    item.container := owner;
  }

  method Unlink(item: ListItem)
    requires item.next != null && item.previous != null && item.next != item && item.previous != item
    modifies item.previous`next, item.next`previous, item`container
    ensures old(item.previous).next == old(item.next) && old(item.next).previous == old(item.previous)
    ensures item.next == old(item.next) && item.previous == old(item.previous)
    ensures item.container == null
  {
    item.next.previous := item.previous;
    item.previous.next := item.next;
    item.container := null;
  }
}
