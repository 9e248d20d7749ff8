/** How tasks of one priority share the processor: the scheduler takes the entry
    after the cursor each time (tasks.c, taskSELECT_HIGHEST_PRIORITY_TASK), while
    tasks join the list in front of the cursor and leave it from anywhere. */
module RoundRobin {
  import opened CursorLists

  // Number of selections until the item at position i is chosen.
  function Distance<T>(l: CList<T>, i: nat): nat
    requires l.WellFormed() && i < |l.items|
  {
    if i >= l.cursor then i + 1 - l.cursor else |l.items| - l.cursor + i + 1
  }

  function Wait<T(==)>(l: CList<T>, x: T): nat
    requires l.WellFormed() && x in l.items
  {
    Distance(l, IndexOf(l.items, x))
  }

  predicate AtCursor<T(==)>(l: CList<T>, x: T) {
    0 < l.cursor <= |l.items| && Selected(l) == x
  }

  datatype Op<T> = Select | Join(item: T) | Leave(item: T)

  ghost predicate Enabled<T>(l: CList<T>, op: Op<T>) {
    match op
    case Select => l.items != []
    case Join(x) => x !in l.items
    case Leave(x) => x in l.items
  }

  ghost function Apply<T>(l: CList<T>, op: Op<T>): (r: CList<T>)
    requires l.WellFormed() && Enabled(l, op)
    ensures r.WellFormed()
  {
    match op
    case Select => Next(l)
    case Join(x) => InsertEnd(l, x)
    case Leave(x) => Remove(l, x)
  }

  // Where an item lands when another is inserted, or removed.
  lemma InsertAtShifts<T>(items: seq<T>, k: nat, x: T, i: nat)
    requires Distinct(items) && x !in items && k <= |items| && i < |items|
    ensures Distinct(InsertAt(items, k, x))
    ensures IndexOf(InsertAt(items, k, x), items[i]) == if i >= k then i + 1 else i
  {
    var r := InsertAt(items, k, x);
    IndexOfUnique(r, if i >= k then i + 1 else i);
  }

  lemma DropAtShifts<T>(items: seq<T>, k: nat, i: nat)
    requires Distinct(items) && k < |items| && i < |items| && i != k
    ensures Distinct(DropAt(items, k))
    ensures IndexOf(DropAt(items, k), items[i]) == if i > k then i - 1 else i
  {
    var r := DropAt(items, k);
    IndexOfUnique(r, if i > k then i - 1 else i);
  }

  // One operation changes the wait of an item that stays on the list as follows:
  // a selection that does not choose it brings it one nearer; a departure never
  // moves it back; an arrival moves it back exactly when the cursor stands on it.
  lemma SelectStep<T>(l: CList<T>, t: T)
    requires l.WellFormed() && Distinct(l.items) && t in l.items
    ensures 1 <= Wait(l, t) <= |l.items|
    ensures if Wait(l, t) == 1 then AtCursor(Next(l), t)
            else !AtCursor(Next(l), t) && Wait(Next(l), t) == Wait(l, t) - 1
  {
    IndexOfUnique(l.items, Next(l).cursor - 1);
  }

  lemma AtCursorIs<T>(l: CList<T>, x: T)
    requires l.WellFormed() && Distinct(l.items) && x in l.items
    ensures AtCursor(l, x) <==> l.cursor > 0 && IndexOf(l.items, x) == l.cursor - 1
  {
    if l.cursor > 0 {
      IndexOfUnique(l.items, l.cursor - 1);
    }
  }

  lemma JoinStep<T>(l: CList<T>, x: T, t: T)
    requires l.WellFormed() && Distinct(l.items) && t in l.items && x !in l.items
    ensures Distinct(InsertEnd(l, x).items) && t in InsertEnd(l, x).items
    ensures Wait(InsertEnd(l, x), t) == Wait(l, t) + (if AtCursor(l, t) then 1 else 0)
    ensures AtCursor(InsertEnd(l, x), t) == AtCursor(l, t)
  {
    hide IndexOf, Distinct, AtCursor, InsertAt;
    var i := IndexOf(l.items, t);
    var k := if l.cursor == 0 then |l.items| else l.cursor - 1;
    InsertAtShifts(l.items, k, x, i);
    InsertAtDistinct(l.items, k, x);
    AtCursorIs(l, t);
    AtCursorIs(InsertEnd(l, x), t);
  }

  lemma WaitAfterRemoval<T>(l: CList<T>, k: nat, i: nat)
    requires l.WellFormed() && k < |l.items| && i < |l.items| && i != k
    ensures Distance(RemoveAt(l, k), if i > k then i - 1 else i)
         == Distance(l, i) - (if Distance(l, k) < Distance(l, i) then 1 else 0)
  {
  }

  lemma LeaveStep<T>(l: CList<T>, x: T, t: T)
    requires l.WellFormed() && Distinct(l.items) && t in l.items && x in l.items && x != t
    ensures Distinct(Remove(l, x).items) && t in Remove(l, x).items
    ensures Wait(Remove(l, x), t) == Wait(l, t) - (if Wait(l, x) < Wait(l, t) then 1 else 0)
  {
    var k, i := IndexOf(l.items, x), IndexOf(l.items, t);
    DropAtShifts(l.items, k, i);
    WaitAfterRemoval(l, k, i);
  }

  // A newcomer is served last: after every other item, except that the item
  // under the cursor has just had its turn.
  lemma NewcomerWait<T>(l: CList<T>, x: T)
    requires l.WellFormed() && Distinct(l.items) && x !in l.items
    ensures x in InsertEnd(l, x).items
    ensures Wait(InsertEnd(l, x), x) == if l.cursor == 0 then |l.items| + 1 else |l.items|
  {
    var k := if l.cursor == 0 then |l.items| else l.cursor - 1;
    var r := InsertAt(l.items, k, x);
    assert InsertEnd(l, x).items == r;
    IndexOfUnique(r, k);
  }

  // Only the item under the cursor has to wait as long as there are items.
  lemma CursorWaits<T>(l: CList<T>, u: T)
    requires l.WellFormed() && Distinct(l.items) && u in l.items && l.cursor > 0 && !AtCursor(l, u)
    ensures Wait(l, u) < |l.items|
  {
    AtCursorIs(l, u);
  }

  // So a newcomer is served after every other item but that one.
  lemma NewcomerIsLast<T>(l: CList<T>, x: T, u: T)
    requires l.WellFormed() && Distinct(l.items) && x !in l.items && u in l.items && !AtCursor(l, u)
    ensures u in InsertEnd(l, x).items && x in InsertEnd(l, x).items
    ensures Wait(InsertEnd(l, x), u) < Wait(InsertEnd(l, x), x)
  {
    hide Wait, AtCursor, InsertEnd;
    NewcomerWait(l, x);
    JoinStep(l, x, u);
    SelectStep(l, u);
    if l.cursor > 0 {
      CursorWaits(l, u);
    }
  }

  // ---- whole runs ----

  ghost predicate Run<T>(l: CList<T>, ops: seq<Op<T>>)
    requires l.WellFormed()
    decreases |ops|
  {
    ops == [] || (Enabled(l, ops[0]) && Run(Apply(l, ops[0]), ops[1..]))
  }

  ghost function Final<T>(l: CList<T>, ops: seq<Op<T>>): (r: CList<T>)
    requires l.WellFormed() && Run(l, ops)
    ensures r.WellFormed()
    decreases |ops|
  {
    if ops == [] then l else Final(Apply(l, ops[0]), ops[1..])
  }

  // t is on the list throughout and no selection chooses it
  ghost predicate PassedOver<T>(l: CList<T>, ops: seq<Op<T>>, t: T)
    requires l.WellFormed() && Run(l, ops)
    decreases |ops|
  {
    t in l.items && (ops == [] || (ops[0] != Leave(t)
      && (ops[0].Select? ==> !AtCursor(Next(l), t))
      && PassedOver(Apply(l, ops[0]), ops[1..], t)))
  }

  ghost function Selections<T>(ops: seq<Op<T>>): nat {
    if ops == [] then 0 else (if ops[0].Select? then 1 else 0) + Selections(ops[1..])
  }

  // Arrivals while the cursor stands on t.  The cursor can stand on an item that
  // did not have its turn: it falls back there when the item after it leaves.
  ghost function Overtakings<T>(l: CList<T>, ops: seq<Op<T>>, t: T): nat
    requires l.WellFormed() && Run(l, ops)
    decreases |ops|
  {
    if ops == [] then 0 else
      (if ops[0].Join? && AtCursor(l, t) then 1 else 0) + Overtakings(Apply(l, ops[0]), ops[1..], t)
  }

  // Departures of items that were to be served before t
  ghost function Clearings<T>(l: CList<T>, ops: seq<Op<T>>, t: T): nat
    requires l.WellFormed() && Run(l, ops)
    decreases |ops|
  {
    if ops == [] then 0 else
      (if ops[0].Leave? && t in l.items && Wait(l, ops[0].item) < Wait(l, t) then 1 else 0)
      + Clearings(Apply(l, ops[0]), ops[1..], t)
  }

  // Waiting, exactly accounted: over any run that passes t over, the selections
  // made, the departures that brought it nearer and the wait that remains add up to
  // its initial wait (which is at most the length of the list) and the arrivals
  // that overtook it.
  lemma {:induction false} WaitingAccounted<T>(l: CList<T>, ops: seq<Op<T>>, t: T)
    requires l.WellFormed() && Distinct(l.items) && Run(l, ops) && PassedOver(l, ops, t)
    ensures Distinct(Final(l, ops).items) && t in Final(l, ops).items
    ensures Selections(ops) + Clearings(l, ops, t) + Wait(Final(l, ops), t) == Wait(l, t) + Overtakings(l, ops, t)
    ensures 1 <= Wait(Final(l, ops), t) && Wait(l, t) <= |l.items|
    decreases |ops|
  {
    SelectStep(l, t);
    if ops != [] {
      match ops[0] {
        case Select =>
        case Join(x) => JoinStep(l, x, t);
        case Leave(x) => LeaveStep(l, x, t);
      }
      WaitingAccounted(Apply(l, ops[0]), ops[1..], t);
    }
  }

  // ---- who can be overtaken ----

  // t stands behind the cursor, so that the cursor comes to it before it comes to
  // the end of the list.
  ghost predicate Behind<T>(l: CList<T>, t: T) {
    t in l.items && IndexOf(l.items, t) >= l.cursor
  }

  lemma BehindStep<T>(l: CList<T>, op: Op<T>, t: T)
    requires l.WellFormed() && Distinct(l.items) && Behind(l, t) && Enabled(l, op)
    requires op != Leave(t) && (op.Select? ==> !AtCursor(Next(l), t))
    ensures !AtCursor(l, t) && Distinct(Apply(l, op).items) && Behind(Apply(l, op), t)
  {
    hide IndexOf, AtCursor;
    var i := IndexOf(l.items, t);
    AtCursorIs(l, t);
    match op
    case Select => AtCursorIs(Next(l), t);
    case Join(x) => InsertAtShifts(l.items, if l.cursor == 0 then |l.items| else l.cursor - 1, x, i);
    case Leave(x) => DropAtShifts(l.items, IndexOf(l.items, x), i);
  }

  lemma {:induction false} BehindIsNotOvertaken<T>(l: CList<T>, ops: seq<Op<T>>, t: T)
    requires l.WellFormed() && Distinct(l.items) && Behind(l, t) && Run(l, ops) && PassedOver(l, ops, t)
    ensures Overtakings(l, ops, t) == 0
    decreases |ops|
  {
    hide AtCursor, Behind;
    if ops != [] {
      BehindStep(l, ops[0], t);
      BehindIsNotOvertaken(Apply(l, ops[0]), ops[1..], t);
    }
  }

  // No run passes over an item behind the cursor as often as there are items.
  lemma ServedWithinLength<T>(l: CList<T>, ops: seq<Op<T>>, t: T)
    requires l.WellFormed() && Distinct(l.items) && Behind(l, t) && Run(l, ops) && PassedOver(l, ops, t)
    ensures Selections(ops) < Wait(l, t) <= |l.items|
  {
    BehindIsNotOvertaken(l, ops, t);
    WaitingAccounted(l, ops, t);
  }

  // The operations, none of them a selection, lead from one list to another while t
  // stays on it: what passes t over from there passes it over from here.
  ghost predicate Leads<T(!new)>(l: CList<T>, ops: seq<Op<T>>, l': CList<T>, t: T)
    requires l.WellFormed() && l'.WellFormed()
  {
    forall rest :: Run(l', rest) && PassedOver(l', rest, t) ==>
      Run(l, ops + rest) && PassedOver(l, ops + rest, t) && Selections(ops + rest) == Selections(rest)
  }

  lemma LeadsNowhere<T(!new)>(l: CList<T>, t: T)
    requires l.WellFormed()
    ensures Leads(l, [], l, t)
  {
    assert forall rest: seq<Op<T>> :: [] + rest == rest;
  }

  lemma LeadsStep<T(!new)>(l: CList<T>, op: Op<T>, ops: seq<Op<T>>, l': CList<T>, t: T)
    requires l.WellFormed() && l'.WellFormed() && Enabled(l, op) && Leads(Apply(l, op), ops, l', t)
    requires t in l.items && op != Leave(t) && !op.Select?
    ensures Leads(l, [op] + ops, l', t)
  {
    hide Run, PassedOver, Selections, Overtakings, AtCursor;
    forall rest | Run(l', rest) && PassedOver(l', rest, t)
      ensures Run(l, [op] + ops + rest) && PassedOver(l, [op] + ops + rest, t)
              && Selections([op] + ops + rest) == Selections(rest)
    {
      Unfold(l, op, ops + rest, t);
      assert [op] + ops + rest == [op] + (ops + rest);
    }
  }

  // An item under the cursor can be overtaken by any number of arrivals, each of
  // which is then selected before it.
  lemma {:induction false} JoinAll<T(!new)>(l: CList<T>, t: T, others: seq<T>) returns (ops: seq<Op<T>>, l': CList<T>)
    requires l.WellFormed() && Distinct(l.items) && t in l.items && AtCursor(l, t)
    requires Distinct(others) && forall x :: x in others ==> x !in l.items
    ensures l'.WellFormed() && Distinct(l'.items) && t in l'.items && Wait(l', t) == Wait(l, t) + |others|
    ensures Leads(l, ops, l', t)
    decreases |others|
  {
    hide Leads, AtCursor, Wait;
    if others == [] {
      ops, l' := [], l;
      LeadsNowhere(l, t);
    } else {
      JoinStep(l, others[0], t);
      JoinedItems(l, others[0]);
      assert forall x :: x in others[1..] ==> x != others[0];
      ops, l' := JoinAll(InsertEnd(l, others[0]), t, others[1..]);
      LeadsStep(l, Join(others[0]), ops, l', t);
      ops := [Join(others[0])] + ops;
    }
  }

  lemma JoinedItems<T>(l: CList<T>, x: T)
    requires l.WellFormed() && Distinct(l.items) && x !in l.items
    ensures Distinct(InsertEnd(l, x).items) && forall y :: y in InsertEnd(l, x).items <==> y in l.items || y == x
  {
    InsertAtDistinct(l.items, if l.cursor == 0 then |l.items| else l.cursor - 1, x);
  }

  // Selecting until its turn is next passes an item over as often as it has to wait, less one.
  lemma {:induction false} SelectUntilNext<T>(l: CList<T>, t: T) returns (ops: seq<Op<T>>)
    requires l.WellFormed() && Distinct(l.items) && t in l.items
    ensures Run(l, ops) && PassedOver(l, ops, t) && Selections(ops) == Wait(l, t) - 1
    decreases Wait(l, t)
  {
    SelectStep(l, t);
    ops := [];
    if Wait(l, t) > 1 {
      var rest := SelectUntilNext(Next(l), t);
      Unfold(l, Select, rest, t);
      ops := [Select] + rest;
    }
  }

  // The cursor falls back, over the items that leave under it, to an item before it.
  lemma {:induction false} FallBackTo<T(!new)>(l: CList<T>, t: T) returns (ops: seq<Op<T>>, l': CList<T>)
    requires l.WellFormed() && Distinct(l.items) && t in l.items && IndexOf(l.items, t) < l.cursor
    ensures l'.WellFormed() && Distinct(l'.items) && t in l'.items && AtCursor(l', t)
    ensures (forall x :: x in l'.items ==> x in l.items) && Leads(l, ops, l', t)
    decreases l.cursor
  {
    hide Leads;
    AtCursorIs(l, t);
    if AtCursor(l, t) {
      ops, l' := [], l;
      LeadsNowhere(l, t);
    } else {
      var x := l.items[l.cursor - 1];
      IndexOfUnique(l.items, l.cursor - 1);
      DropAtShifts(l.items, l.cursor - 1, IndexOf(l.items, t));
      DropAtDistinct(l.items, l.cursor - 1);
      ops, l' := FallBackTo(Remove(l, x), t);
      LeadsStep(l, Leave(x), ops, l', t);
      ops := [Leave(x)] + ops;
    }
  }

  // So no number bounds the selections that may pass over any other item.
  lemma OvertakenWithoutBound<T(!new)>(l: CList<T>, t: T, others: seq<T>) returns (ops: seq<Op<T>>)
    requires l.WellFormed() && Distinct(l.items) && t in l.items && !Behind(l, t)
    requires Distinct(others) && forall x :: x in others ==> x !in l.items
    ensures Run(l, ops) && PassedOver(l, ops, t) && Selections(ops) >= |others|
  {
    var ops1, l1 := FallBackTo(l, t);
    var ops2, l2 := JoinAll(l1, t, others);
    SelectStep(l1, t);
    var ops3 := SelectUntilNext(l2, t);
    ops := ops1 + (ops2 + ops3);
  }

  // Bounded waiting, exactly: no run passes over a listed task as often as there
  // are tasks on the list, if and only if the task is behind the cursor.  For one
  // that is not, there is no bound at all.
  lemma BoundedWaitingExactly(l: CList<nat>, t: nat, bound: nat)
    requires l.WellFormed() && Distinct(l.items) && t in l.items && bound >= |l.items|
    ensures (forall ops :: Run(l, ops) && PassedOver(l, ops, t) ==> Selections(ops) < bound) <==> Behind(l, t)
  {
    if Behind(l, t) {
      forall ops | Run(l, ops) && PassedOver(l, ops, t)
        ensures Selections(ops) < bound
      {
        ServedWithinLength(l, ops, t);
      }
    } else {
      var above := Above(l.items);
      var others := seq(bound, i => above + i);
      var ops := OvertakenWithoutBound(l, t, others);
    }
  }

  function Above(items: seq<nat>): (n: nat)
    ensures forall i :: 0 <= i < |items| ==> items[i] < n
  {
    if items == [] then 0 else
      var n := Above(items[..|items| - 1]);
      if items[|items| - 1] < n then n else items[|items| - 1] + 1
  }

  lemma Unfold<T>(l: CList<T>, op: Op<T>, rest: seq<Op<T>>, t: T)
    requires l.WellFormed() && Enabled(l, op) && Run(Apply(l, op), rest)
    ensures Run(l, [op] + rest)
    ensures Selections([op] + rest) == (if op.Select? then 1 else 0) + Selections(rest)
    ensures Overtakings(l, [op] + rest, t)
         == (if op.Join? && AtCursor(l, t) then 1 else 0) + Overtakings(Apply(l, op), rest, t)
    ensures t in l.items && op != Leave(t) && (op.Select? ==> !AtCursor(Next(l), t))
            && PassedOver(Apply(l, op), rest, t)
            ==> PassedOver(l, [op] + rest, t)
  {
    assert ([op] + rest)[1..] == rest;
  }

  // A small such run: with 1, 2, 3 ready and 2 running, 2 blocks (the cursor falls
  // back to 1), 4 and 5 arrive, and 1 is passed over by three selections although
  // three items were ready.
  lemma OvertakingExample() returns (l: CList<int>, ops: seq<Op<int>>)
    ensures l == CList([1, 2, 3], 2) && ops == [Leave(2), Join(4), Join(5), Select, Select, Select]
    ensures Run(l, ops) && PassedOver(l, ops, 1) && Selections(ops) == 3 && Overtakings(l, ops, 1) == 2
  {
    ExampleStates();
    l := CList([1, 2, 3], 2);
    var rest := PassedByThree(CList([4, 5, 1, 3], 3));
    ops := AfterThreeChanges(l, CList([1, 3], 1), CList([4, 1, 3], 2), CList([4, 5, 1, 3], 3), rest);
  }

  lemma ExampleStates()
    ensures Apply(CList([1, 2, 3], 2), Leave(2)) == CList([1, 3], 1)
    ensures Apply(CList([1, 3], 1), Join(4)) == CList([4, 1, 3], 2)
    ensures Apply(CList([4, 1, 3], 2), Join(5)) == CList([4, 5, 1, 3], 3)
  {
    assert IndexOf([1, 2, 3], 2) == 1 && DropAt([1, 2, 3], 1) == [1, 3];
    assert InsertAt([1, 3], 0, 4) == [4, 1, 3];
    assert InsertAt([4, 1, 3], 1, 5) == [4, 5, 1, 3];
  }

  lemma AfterThreeChanges(l: CList<int>, l1: CList<int>, l2: CList<int>, l3: CList<int>, rest: seq<Op<int>>)
    returns (ops: seq<Op<int>>)
    requires l.WellFormed() && Enabled(l, Leave(2)) && Apply(l, Leave(2)) == l1 && 1 in l.items
    requires Enabled(l1, Join(4)) && Apply(l1, Join(4)) == l2 && AtCursor(l1, 1)
    requires Enabled(l2, Join(5)) && Apply(l2, Join(5)) == l3 && AtCursor(l2, 1)
    requires Run(l3, rest) && PassedOver(l3, rest, 1)
    ensures ops == [Leave(2), Join(4), Join(5)] + rest && Run(l, ops) && PassedOver(l, ops, 1)
    ensures Selections(ops) == Selections(rest) && Overtakings(l, ops, 1) == 2 + Overtakings(l3, rest, 1)
  {
    Unfold(l2, Join(5), rest, 1);
    ops := [Join(5)] + rest;
    Unfold(l1, Join(4), ops, 1);
    ops := [Join(4)] + ops;
    Unfold(l, Leave(2), ops, 1);
    ops := [Leave(2)] + ops;
  }

  lemma PassedByThree(l: CList<int>) returns (ops: seq<Op<int>>)
    requires l == CList([4, 5, 1, 3], 3)
    ensures ops == [Select, Select, Select]
    ensures Run(l, ops) && PassedOver(l, ops, 1) && Selections(ops) == 3 && Overtakings(l, ops, 1) == 0
  {
    ops := [];
    assert PassedOver(l.(cursor := 2), ops, 1);
    Unfold(l.(cursor := 1), Select, ops, 1);
    ops := [Select] + ops;
    Unfold(l.(cursor := 4), Select, ops, 1);
    ops := [Select] + ops;
    Unfold(l, Select, ops, 1);
    ops := [Select] + ops;
  }
}
