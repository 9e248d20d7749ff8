/** The storage of a queue (queue.c): a ring of item slots in an array of bytes,
    with offsets for the next write and the last read and a count of items.

    It is proved to be a sequence of items, for every length and item size; an
    item size of zero is a semaphore, which stores nothing but the count. */
module QueueBuffers {

  type Byte = b: nat | b < 256
  type Item = seq<Byte>

  datatype Position = Back | Front | Overwrite

  // ---------------------------------------------------------------------
  // Slots
  // ---------------------------------------------------------------------

  // The byte offset of a slot
  function Offset(slot: nat, size: nat): nat {
    slot * size
  }

  lemma OffsetNext(slot: nat, size: nat)
    ensures Offset(slot + 1, size) == Offset(slot, size) + size && Offset(0, size) == 0
  {
  }

  lemma OffsetsOrdered(a: nat, b: nat, size: nat)
    ensures a <= b ==> Offset(a, size) <= Offset(b, size)
  {
  }

  lemma OffsetsApart(a: nat, b: nat, size: nat)
    ensures a < b ==> Offset(a, size) + size <= Offset(b, size)
  {
    hide Offset;
    OffsetNext(a, size);
    OffsetsOrdered(a + 1, b, size);
  }

  // The slot a number of places after another, round the ring
  function Slot(from: nat, steps: nat, length: nat): (s: nat)
    requires from < length && steps <= length + 1
    ensures s < length
  {
    if from + steps < length then from + steps
    else if from + steps < 2 * length then from + steps - length
    else from + steps - 2 * length
  }

  lemma SlotIsModulo(from: nat, steps: nat, length: nat)
    requires from < length && steps <= length + 1
    ensures Slot(from, steps, length) == (from + steps) % length
  {
  }

  lemma SlotsApart(from: nat, a: nat, b: nat, length: nat)
    requires from < length && a < b < a + length && b <= length + 1
    ensures Slot(from, a, length) != Slot(from, b, length)
  {
  }

  // The bytes in a slot
  function ItemAt(data: seq<Byte>, slot: nat, size: nat, length: nat): (item: Item)
    requires slot < length && |data| == Offset(length, size)
    ensures |item| == size
  {
    OffsetsApart(slot, length, size);
    data[Offset(slot, size)..Offset(slot, size) + size]
  }

  // The items are in the slots after the one last read.
  ghost predicate Holds(data: seq<Byte>, size: nat, length: nat, read: nat, items: seq<Item>) {
    && read < length && |items| <= length && |data| == Offset(length, size)
    && forall i :: 0 <= i < |items| ==> items[i] == ItemAt(data, Slot(read, i + 1, length), size, length)
  }

  // Without data there is only the count of items, which may pass the length.
  ghost predicate Stored(data: seq<Byte>, size: nat, length: nat, read: nat, items: seq<Item>) {
    && read < length && |data| == Offset(length, size)
    && if size == 0 then forall i :: 0 <= i < |items| ==> items[i] == [] else Holds(data, size, length, read, items)
  }

  // data' is data with an item written to a slot.
  ghost predicate Written(data: seq<Byte>, data': seq<Byte>, slot: nat, size: nat, item: Item) {
    && |data'| == |data| && |item| == size && Offset(slot, size) + size <= |data|
    && forall k :: 0 <= k < |data| ==>
         data'[k]
         == if Offset(slot, size) <= k < Offset(slot, size) + size then item[k - Offset(slot, size)] else data[k]
  }

  lemma WrittenSlots(data: seq<Byte>, data': seq<Byte>, slot: nat, size: nat, length: nat, item: Item, other: nat)
    requires Written(data, data', slot, size, item) && slot < length && other < length && |data| == Offset(length, size)
    ensures |data'| == |data|
    ensures ItemAt(data', other, size, length) == if other == slot then item else ItemAt(data, other, size, length)
  {
    hide Offset;
    OffsetsApart(slot, other, size);
    OffsetsApart(other, slot, size);
    OffsetsApart(other, length, size);
  }

  // ---- what writing and reading do to the sequence of items ----

  lemma WriteBehind(data: seq<Byte>, data': seq<Byte>, size: nat, length: nat, read: nat, items: seq<Item>, item: Item)
    requires Holds(data, size, length, read, items) && |items| < length
    requires Written(data, data', Slot(read, |items| + 1, length), size, item)
    ensures Holds(data', size, length, read, items + [item])
  {
    hide Slot, ItemAt, Written, Offset;
    var slot := Slot(read, |items| + 1, length);
    WrittenSlots(data, data', slot, size, length, item, slot);
    forall i | 0 <= i < |items| + 1
      ensures (items + [item])[i] == ItemAt(data', Slot(read, i + 1, length), size, length)
    {
      WrittenSlots(data, data', slot, size, length, item, Slot(read, i + 1, length));
      if i < |items| {
        SlotsApart(read, i + 1, |items| + 1, length);
      }
    }
  }

  // Writing to the slot last read, and stepping back, puts an item in front.
  lemma WriteBefore(data: seq<Byte>, data': seq<Byte>, size: nat, length: nat, read: nat, items: seq<Item>, item: Item)
    requires Holds(data, size, length, read, items) && |items| < length && Written(data, data', read, size, item)
    ensures Holds(data', size, length, StepBack(read, length), [item] + items)
  {
    hide ItemAt, Written, Offset;
    var back := StepBack(read, length);
    WrittenSlots(data, data', read, size, length, item, read);
    forall i | 0 <= i < |items| + 1
      ensures ([item] + items)[i] == ItemAt(data', Slot(back, i + 1, length), size, length)
    {
      assert Slot(back, i + 1, length) == if i == 0 then read else Slot(read, i, length);
      WrittenSlots(data, data', read, size, length, item, Slot(back, i + 1, length));
    }
  }

  function StepBack(slot: nat, length: nat): (s: nat)
    requires slot < length
    ensures s < length
  {
    if slot == 0 then length - 1 else slot - 1
  }

  lemma ReadOne(data: seq<Byte>, size: nat, length: nat, read: nat, items: seq<Item>)
    requires Holds(data, size, length, read, items) && items != []
    ensures items[0] == ItemAt(data, Slot(read, 1, length), size, length)
    ensures Holds(data, size, length, Slot(read, 1, length), items[1..])
  {
    hide ItemAt, Offset;
    var next := Slot(read, 1, length);
    forall i | 0 <= i < |items| - 1
      ensures items[1..][i] == ItemAt(data, Slot(next, i + 1, length), size, length)
    {
      assert Slot(next, i + 1, length) == Slot(read, i + 2, length);
      assert items[1..][i] == items[i + 1];
    }
  }

  lemma EmptyItems(data: seq<Byte>, length: nat, read: nat, items: seq<Item>, item: Item)
    requires Stored(data, 0, length, read, items) && item == []
    ensures Stored(data, 0, length, read, items + [item]) && items + [item] == [item] + items
  {
    assert forall i :: 0 <= i < |items| ==> items[i] == [];
  }

  lemma NoItems(data: seq<Byte>, size: nat, length: nat, read: nat, items: seq<Item>)
    requires Stored(data, size, length, read, items)
    ensures Stored(data, size, length, read, []) && read < length && |data| == Offset(length, size)
    ensures size > 0 ==> Holds(data, size, length, read, items) && Holds(data, size, length, read, [])
    ensures size > 0 ==> |items| <= length
  {
  }

  lemma StoredOne(data: seq<Byte>, size: nat, length: nat, read: nat, items: seq<Item>)
    requires Stored(data, size, length, read, items) && items != []
    ensures size > 0 ==> items[0] == ItemAt(data, Slot(read, 1, length), size, length)
    ensures size == 0 ==> items[0] == []
    ensures Stored(data, size, length, Slot(read, 1, length), items[1..])
  {
    if size > 0 {
      ReadOne(data, size, length, read, items);
    }
  }

  // What a send makes of the items: without data, one more whatever the position
  function Sent(items: seq<Item>, item: Item, position: Position, size: nat): seq<Item> {
    if size == 0 then items + [item]
    else
      match position
      case Back => items + [item]
      case Front => [item] + items
      case Overwrite => [item]
  }

  lemma SlotFromBack(read: nat, steps: nat, length: nat)
    requires read < length && steps <= length
    ensures Slot(StepBack(read, length), steps + 1, length) == Slot(read, steps, length)
  {
  }

  lemma OnlySlot(a: nat, b: nat, length: nat)
    requires length == 1 && a < length
    ensures Slot(a, 2, length) == 0 && Slot(a, 1, length) == 0
  {
  }

  lemma StepOn(slot: nat, size: nat, length: nat)
    requires slot < length && size > 0
    ensures Offset(Slot(slot, 1, length), size)
         == if Offset(slot, size) + size >= Offset(length, size) then 0 else Offset(slot, size) + size
  {
    hide Offset;
    OffsetNext(slot, size);
    OffsetsApart(slot + 1, length, size);
  }

  lemma OffsetOfNothing(slot: nat)
    ensures Offset(slot, 0) == 0
  {
  }

  lemma ReceivedSlot(read: nat, n: nat, length: nat)
    requires read < length && 0 < n <= length
    ensures Slot(Slot(read, 1, length), n, length) == Slot(read, n + 1, length)
  {
  }

  class QueueBuffer {
    const storage: array<Byte>  // pcHead
    const length: nat           // uxLength
    const itemSize: nat         // uxItemSize
    var writeTo: nat            // pcWriteTo - pcHead
    var readFrom: nat           // pcReadFrom - pcHead
    var messagesWaiting: nat    // uxMessagesWaiting

    ghost var items: seq<Item>
    ghost var readSlot: nat
    ghost var writeSlot: nat

    // The slot to write next is as far after the slot last read as there are
    // items between them.
    ghost predicate Valid()
      reads this, storage
    {
      && length > 0 && |items| == messagesWaiting
      && Stored(storage[..], itemSize, length, readSlot, items)
      && readFrom == Offset(readSlot, itemSize) && writeTo == Offset(writeSlot, itemSize)
      && (itemSize > 0 ==> writeSlot == Slot(readSlot, messagesWaiting + 1, length))
    }

    // memcpy into the storage
    method CopyIn(at: nat, item: Item, ghost slot: nat)
      requires at == Offset(slot, itemSize) && |item| == itemSize && at + itemSize <= storage.Length
      modifies storage
      ensures Written(old(storage[..]), storage[..], slot, itemSize, item)
    {
      var k := 0;
      while k < itemSize
        invariant k <= itemSize
        invariant forall j :: 0 <= j < storage.Length ==>
                    storage[j] == if at <= j < at + k then item[j - at] else old(storage[j])
      {
        storage[at + k] := item[k];
        k := k + 1;
      }
    }

    // memcpy out of it
    method CopyOut(at: nat, ghost slot: nat) returns (item: Item)
      requires at == Offset(slot, itemSize) && slot < length && storage.Length == Offset(length, itemSize)
      ensures item == ItemAt(storage[..], slot, itemSize, length)
    {
      OffsetsApart(slot, length, itemSize);
      item := [];
      while |item| < itemSize
        invariant |item| <= itemSize && item == storage[at..at + |item|]
      {
        item := item + [storage[at + |item|]];
      }
    }


    // An item to the back, as memory and as the write offset see it
    method WriteBack(item: Item)
      requires Valid() && |item| == itemSize > 0 && messagesWaiting < length
      modifies storage, `writeTo, `writeSlot
      ensures Holds(storage[..], itemSize, length, readSlot, items + [item])
      ensures writeTo == Offset(writeSlot, itemSize) && writeSlot == Slot(readSlot, messagesWaiting + 2, length)
    {
      hide ItemAt, Offset, Written;
      OffsetsApart(writeSlot, length, itemSize);
      OffsetNext(writeSlot, itemSize);
      OffsetsOrdered(length, writeSlot + 1, itemSize);
      OffsetsApart(writeSlot + 1, length, itemSize);
      CopyIn(writeTo, item, writeSlot);
      WriteBehind(old(storage[..]), storage[..], itemSize, length, readSlot, items, item);
      writeTo := writeTo + itemSize;
      if writeTo >= storage.Length {
        writeTo := 0;
      }
      writeSlot := if writeSlot + 1 == length then 0 else writeSlot + 1;
    }

    // An item to the front, where the queue is taken to hold the given items
    method WriteFront(item: Item, ghost base: seq<Item>)
      requires Valid() && |item| == itemSize > 0 && Holds(storage[..], itemSize, length, readSlot, base)
      requires |base| < length
      modifies storage, `readFrom, `readSlot
      ensures Holds(storage[..], itemSize, length, readSlot, [item] + base)
      ensures readFrom == Offset(readSlot, itemSize) && readSlot == StepBack(old(readSlot), length)
    {
      hide ItemAt, Offset, Written, Slot;
      OffsetsApart(readSlot, length, itemSize);
      OffsetsApart(0, readSlot, itemSize);
      OffsetNext(StepBack(readSlot, length), itemSize);
      CopyIn(readFrom, item, readSlot);
      WriteBefore(old(storage[..]), storage[..], itemSize, length, readSlot, base, item);
      if readFrom < itemSize {
        readFrom := storage.Length - itemSize;
      } else {
        readFrom := readFrom - itemSize;
      }
      readSlot := StepBack(readSlot, length);
    }

    // prvCopyDataToQueue, under the guard of its callers.  On a queue without data
    // the position is not looked at, so that overwriting a full semaphore counts one
    // past the length; nothing else does.
    method CopyDataToQueue(item: Item, position: Position)
      requires Valid() && |item| == itemSize && (position.Overwrite? ==> length == 1)
      requires messagesWaiting < length || position.Overwrite?
      modifies this, storage
      ensures Valid() && items == Sent(old(items), item, position, itemSize)
      ensures messagesWaiting <= length <==> itemSize > 0 || old(messagesWaiting) < length
    {
      hide ItemAt, Offset, Holds, Slot;
      var n := messagesWaiting;
      NoItems(storage[..], itemSize, length, readSlot, items);
      if itemSize == 0 {
        EmptyItems(storage[..], length, readSlot, items, item);
        items := items + [item];
      } else if position.Back? {
        WriteBack(item);
        items := items + [item];
      } else {
        ghost var base := if position.Overwrite? then [] else items;
        SlotFromBack(readSlot, |base| + 1, length);
        WriteFront(item, base);
        items := [item] + base;
        if position.Overwrite? {
          if n > 0 {
            n := n - 1;
          }
          OnlySlot(readSlot, writeSlot, length);
        }
      }
      messagesWaiting := n + 1;
    }

    // prvCopyDataFromQueue: advance, and copy the slot out
    method CopyDataFromQueue() returns (item: Item)
      requires Valid() && messagesWaiting > 0
      modifies `readFrom, `readSlot
      ensures item == items[0] && Stored(storage[..], itemSize, length, readSlot, items[1..])
      ensures readFrom == Offset(readSlot, itemSize) && readSlot == Slot(old(readSlot), 1, length)
    {
      hide ItemAt, Offset, Slot;
      StoredOne(storage[..], itemSize, length, readSlot, items);
      item := [];
      if itemSize != 0 {
        StepOn(readSlot, itemSize, length);
        readFrom := readFrom + itemSize;
        if readFrom >= storage.Length {
          readFrom := 0;
        }
        item := CopyOut(readFrom, Slot(readSlot, 1, length));
      }
      readSlot := Slot(readSlot, 1, length);
      OffsetOfNothing(readSlot);
      OffsetOfNothing(old(readSlot));
    }

    // The receiving half of xQueueReceive and xQueueReceiveFromISR
    method Receive() returns (item: Item)
      requires Valid() && messagesWaiting > 0
      modifies this
      ensures Valid() && item == old(items)[0] && items == old(items)[1..]
    {
      hide ItemAt, Offset, Holds, Slot;
      NoItems(storage[..], itemSize, length, readSlot, items);
      if itemSize > 0 {
        ReceivedSlot(readSlot, messagesWaiting, length);
      }
      item := CopyDataFromQueue();
      messagesWaiting := messagesWaiting - 1;
      items := items[1..];
    }

    // The reading half of xQueuePeek: the read offset is put back.
    method Peek() returns (item: Item)
      requires Valid() && messagesWaiting > 0
      modifies this
      ensures Valid() && items == old(items) && item == old(items)[0]
    {
      hide ItemAt, Offset, Holds, Slot;
      var originalReadPosition := readFrom;
      item := CopyDataFromQueue();
      readFrom := originalReadPosition;
      readSlot := old(readSlot);
    }

    // xQueueGenericReset
    method Reset()
      requires length > 0 && storage.Length == Offset(length, itemSize)
      modifies this
      ensures Valid() && items == []
    {
      hide Offset;
      messagesWaiting := 0;
      writeTo := 0;
      readFrom := Offset(length - 1, itemSize);
      items, readSlot, writeSlot := [], length - 1, 0;
      OffsetNext(0, itemSize);
    }

    // prvInitialiseNewQueue
    constructor (length: nat, itemSize: nat)
      requires length > 0
      ensures Valid() && fresh(storage) && items == [] && this.length == length && this.itemSize == itemSize
    {
      this.length, this.itemSize := length, itemSize;
      storage := new Byte[Offset(length, itemSize)];
      new;
      Reset();
    }
  }
}
