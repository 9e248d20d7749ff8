/** In which order a queue hands out what it is sent, over any run of sends,
    receives and peeks that find room or an item (queue.c).

    QueueBuffers proves the storage to be the sequence of items that these
    functions work on. */
module QueueOrder {
  import opened QueueBuffers

  datatype Op = Send(item: Item, position: Position) | Receive | Peek

  predicate Enabled(items: seq<Item>, op: Op, length: nat, size: nat) {
    match op
    case Send(item, position) =>
      |item| == size && (|items| < length || position.Overwrite?) && (position.Overwrite? ==> length == 1)
    case Receive => items != []
    case Peek => items != []
  }

  function Apply(items: seq<Item>, op: Op, size: nat): seq<Item>
    requires op.Receive? ==> items != []
  {
    match op
    case Send(item, position) => Sent(items, item, position, size)
    case Receive => items[1..]
    case Peek => items
  }

  ghost predicate Run(items: seq<Item>, ops: seq<Op>, length: nat, size: nat)
    decreases |ops|
  {
    ops == [] || (Enabled(items, ops[0], length, size) && Run(Apply(items, ops[0], size), ops[1..], length, size))
  }

  ghost function Final(items: seq<Item>, ops: seq<Op>, length: nat, size: nat): seq<Item>
    requires Run(items, ops, length, size)
    decreases |ops|
  {
    if ops == [] then items else Final(Apply(items, ops[0], size), ops[1..], length, size)
  }

  // What the receives of a run return, one after another
  ghost function Received(items: seq<Item>, ops: seq<Op>, length: nat, size: nat): seq<Item>
    requires Run(items, ops, length, size)
    decreases |ops|
  {
    if ops == [] then []
    else
      (if ops[0].Receive? then [items[0]] else []) + Received(Apply(items, ops[0], size), ops[1..], length, size)
  }

  // What its peeks return
  ghost function Seen(items: seq<Item>, ops: seq<Op>, length: nat, size: nat): seq<Item>
    requires Run(items, ops, length, size)
    decreases |ops|
  {
    if ops == [] then []
    else (if ops[0].Peek? then [items[0]] else []) + Seen(Apply(items, ops[0], size), ops[1..], length, size)
  }

  ghost function Posted(ops: seq<Op>): seq<Item> {
    if ops == [] then [] else (if ops[0].Send? then [ops[0].item] else []) + Posted(ops[1..])
  }

  ghost predicate OnlyBack(ops: seq<Op>) {
    forall i :: 0 <= i < |ops| && ops[i].Send? ==> ops[i].position.Back?
  }

  ghost predicate NothingReceived(ops: seq<Op>) {
    forall i :: 0 <= i < |ops| ==> !ops[i].Receive?
  }

  ghost predicate OfSize(items: seq<Item>, size: nat) {
    forall i :: 0 <= i < |items| ==> |items[i]| == size
  }

  // First in, first out: what is received, and then what is left, is what was there
  // and then what was sent, in that order.
  lemma {:induction false} FirstInFirstOut(items: seq<Item>, ops: seq<Op>, length: nat, size: nat)
    requires Run(items, ops, length, size) && OnlyBack(ops)
    ensures Received(items, ops, length, size) + Final(items, ops, length, size) == items + Posted(ops)
    decreases |ops|
  {
    if ops != [] {
      var items1, rest := Apply(items, ops[0], size), ops[1..];
      FirstInFirstOut(items1, rest, length, size);
      match ops[0]
      case Send(item, _) =>
        assert items1 == items + [item];
        assert items1 + Posted(rest) == items + ([item] + Posted(rest));
        assert [] + Received(items1, rest, length, size) == Received(items1, rest, length, size);
      case Receive =>
        assert items == [items[0]] + items1;
        assert items + Posted(rest) == [items[0]] + (items1 + Posted(rest));
        assert [] + Posted(rest) == Posted(rest);
      case Peek =>
        assert [] + Received(items1, rest, length, size) == Received(items1, rest, length, size);
        assert [] + Posted(rest) == Posted(rest);
    }
  }

  // So with everything received, it is exactly what was sent to an empty queue.
  lemma AllIsReceived(ops: seq<Op>, length: nat, size: nat)
    requires Run([], ops, length, size) && OnlyBack(ops) && Final([], ops, length, size) == []
    ensures Received([], ops, length, size) == Posted(ops)
  {
    FirstInFirstOut([], ops, length, size);
    assert Received([], ops, length, size) + [] == Received([], ops, length, size);
    assert [] + Posted(ops) == Posted(ops);
  }

  lemma {:induction false} OneMoreOp(items: seq<Item>, ops: seq<Op>, last: Op, length: nat, size: nat)
    requires Run(items, ops, length, size) && Enabled(Final(items, ops, length, size), last, length, size)
    ensures Run(items, ops + [last], length, size)
    ensures Final(items, ops + [last], length, size) == Apply(Final(items, ops, length, size), last, size)
    ensures Received(items, ops + [last], length, size)
         == Received(items, ops, length, size) + (if last.Receive? then [Final(items, ops, length, size)[0]] else [])
    decreases |ops|
  {
    if ops == [] {
      assert [] + [last] == [last];
    } else {
      OneMoreOp(Apply(items, ops[0], size), ops[1..], last, length, size);
      assert (ops + [last])[1..] == ops[1..] + [last];
    }
  }

  lemma {:induction false} NoneReceived(items: seq<Item>, ops: seq<Op>, length: nat, size: nat)
    requires Run(items, ops, length, size) && NothingReceived(ops)
    ensures Received(items, ops, length, size) == []
    decreases |ops|
  {
    if ops != [] {
      NoneReceived(Apply(items, ops[0], size), ops[1..], length, size);
    }
  }

  // An item sent to the front is the next one received, whatever is sent to the back
  // or looked at before; what was there before it, and what comes behind, follow in
  // their order.
  lemma FrontIsNext(items: seq<Item>, item: Item, ops: seq<Op>, length: nat, size: nat)
    requires OfSize(items, size) && |item| == size
    requires Run(items, [Send(item, Front)] + ops, length, size) && OnlyBack(ops) && NothingReceived(ops)
    ensures var all := [Send(item, Front)] + ops + [Receive];
            && Run(items, all, length, size) && Received(items, all, length, size) == [item]
            && Final(items, all, length, size) == items + Posted(ops)
  {
    var items1 := Sent(items, item, Front, size);
    var all := [Send(item, Front)] + ops;
    assert all[1..] == ops;
    if size == 0 {
      NothingInThem(items, item);
    }
    assert items1 == [item] + items;
    NoneReceived(items1, ops, length, size);
    FirstInFirstOut(items1, ops, length, size);
    assert Received(items, all, length, size) == [];
    assert [] + Final(items1, ops, length, size) == Final(items1, ops, length, size);
    assert Final(items, all, length, size) == [item] + (items + Posted(ops));
    OneMoreOp(items, all, Receive, length, size);
  }

  lemma NothingInThem(items: seq<Item>, item: Item)
    requires OfSize(items, 0) && item == []
    ensures items + [item] == [item] + items
  {
    var a, b := items + [item], [item] + items;
    forall i | 0 <= i < |a|
      ensures a[i] == b[i]
    {
      assert a[i] == [] && b[i] == [];
    }
  }

  // An overwrite leaves its item alone to be received.
  lemma OverwriteIsAlone(items: seq<Item>, item: Item, ops: seq<Op>, size: nat)
    requires size > 0 && |item| == size && Run(items, [Send(item, Overwrite)] + ops, 1, size)
    requires forall i :: 0 <= i < |ops| ==> ops[i].Peek?
    ensures var all := [Send(item, Overwrite)] + ops + [Receive];
            Run(items, all, 1, size) && Received(items, all, 1, size) == [item] && Final(items, all, 1, size) == []
  {
    var all := [Send(item, Overwrite)] + ops;
    assert all[1..] == ops;
    NoneReceived([item], ops, 1, size);
    OnlyPeeks([item], ops, 1, size);
    assert Final(items, all, 1, size) == [item];
    OneMoreOp(items, all, Receive, 1, size);
  }

  // Peeks show, each time, the item that the next receive returns.
  lemma {:induction false} OnlyPeeks(items: seq<Item>, ops: seq<Op>, length: nat, size: nat)
    requires Run(items, ops, length, size) && forall i :: 0 <= i < |ops| ==> ops[i].Peek?
    ensures Final(items, ops, length, size) == items && |Seen(items, ops, length, size)| == |ops|
    ensures forall i :: 0 <= i < |ops| ==> items != [] && Seen(items, ops, length, size)[i] == items[0]
    decreases |ops|
  {
    if ops != [] {
      OnlyPeeks(items, ops[1..], length, size);
    }
  }

  // Sends to the front alone are received last in, first out.
  ghost function Backwards(items: seq<Item>): seq<Item> {
    if items == [] then [] else Backwards(items[1..]) + [items[0]]
  }

  lemma {:induction false} LastInFirstOut(items: seq<Item>, ops: seq<Op>, length: nat, size: nat)
    requires OfSize(items, size) && Run(items, ops, length, size)
    requires forall i :: 0 <= i < |ops| ==> ops[i].Send? && ops[i].position.Front?
    ensures Final(items, ops, length, size) == Backwards(Posted(ops)) + items
    decreases |ops|
  {
    if ops != [] {
      var item, rest := ops[0].item, ops[1..];
      if size == 0 {
        NothingInThem(items, item);
      }
      assert Apply(items, ops[0], size) == [item] + items;
      LastInFirstOut([item] + items, rest, length, size);
      FirstIsLast(item, Posted(rest), items);
    }
  }

  lemma FirstIsLast(item: Item, rest: seq<Item>, items: seq<Item>)
    ensures Backwards([item] + rest) + items == Backwards(rest) + ([item] + items)
  {
    assert ([item] + rest)[1..] == rest;
  }

  // ---- without data ----

  ghost function Sends(ops: seq<Op>): nat {
    if ops == [] then 0 else (if ops[0].Send? then 1 else 0) + Sends(ops[1..])
  }

  ghost function Receives(ops: seq<Op>): nat {
    if ops == [] then 0 else (if ops[0].Receive? then 1 else 0) + Receives(ops[1..])
  }

  // A semaphore counts: gives, of whatever kind, less takes.
  lemma {:induction false} SemaphoreCounts(items: seq<Item>, ops: seq<Op>, length: nat)
    requires Run(items, ops, length, 0)
    ensures |Final(items, ops, length, 0)| == |items| + Sends(ops) - Receives(ops)
    decreases |ops|
  {
    if ops != [] {
      SemaphoreCounts(Apply(items, ops[0], 0), ops[1..], length);
    }
  }
}
