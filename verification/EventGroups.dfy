/** Event groups (event_groups.c): tasks wait for any or all of a set of bits, and
    one call that sets bits wakes every task whose condition has come true before
    any bit is cleared again.

    A task's wait is coded in the value of its event list item: the bits it waits
    for, and control bits in the top byte. */
module EventGroups {
  import opened Identifiers
  import opened CursorLists

  type Bits = bv32

  const CLEAR_ON_EXIT: Bits := 0x0100_0000
  const UNBLOCKED_BY_SET: Bits := 0x0200_0000
  const WAIT_FOR_ALL: Bits := 0x0400_0000
  const CONTROL: Bits := 0xff00_0000
  // taskEVENT_LIST_ITEM_VALUE_IN_USE
  const IN_USE: Bits := 0x8000_0000

  // The operations of the code on bits: a | b, a & ~b, and a test of any bit
  function Or(a: Bits, b: Bits): Bits {
    a | b
  }

  function AndNot(a: Bits, b: Bits): Bits {
    a & !b
  }

  predicate HasAny(a: Bits, b: Bits) {
    a & b != 0
  }

  predicate HasAll(a: Bits, b: Bits) {
    a & b == b
  }

  predicate OneBit(m: Bits) {
    m != 0 && m & (m - 1) == 0
  }

  lemma OrHas(x: Bits, y: Bits, m: Bits)
    ensures HasAny(Or(x, y), m) <==> HasAny(x, m) || HasAny(y, m)
  {
    assert (x | y) & m == (x & m) | (y & m);
  }

  lemma NothingHas(m: Bits)
    ensures !HasAny(0, m) && !HasAny(m, 0) && HasAll(m, 0)
  {
  }

  lemma AndNotHas(bits: Bits, clear: Bits, m: Bits)
    requires OneBit(m)
    ensures HasAny(AndNot(bits, clear), m) <==> HasAny(bits, m) && !HasAny(clear, m)
  {
    assert (bits & !clear) & m != 0 <==> bits & m != 0 && clear & m == 0;
  }

  lemma AndNotAny(bits: Bits, clear: Bits, w: Bits)
    ensures HasAny(AndNot(bits, clear), w) ==> HasAny(bits, w)
  {
  }

  lemma AndNotAll(bits: Bits, clear: Bits, w: Bits)
    ensures HasAll(AndNot(bits, clear), w) ==> HasAll(bits, w)
  {
  }

  // Any two sets of bits that meet do so in a single bit, the lowest for one.
  function Lowest(x: Bits): Bits {
    x & (0 - x)
  }

  lemma CommonBit(bits: Bits, waitFor: Bits)
    requires HasAny(bits, waitFor)
    ensures var m := Lowest(waitFor & bits); OneBit(m) && HasAny(waitFor, m) && HasAny(bits, m)
  {
  }

  lemma AnyIsSomeBit(bits: Bits, waitFor: Bits)
    ensures HasAny(bits, waitFor) <==> exists m :: OneBit(m) && HasAny(waitFor, m) && HasAny(bits, m)
  {
    hide HasAny, OneBit;
    if HasAny(bits, waitFor) {
      CommonBit(bits, waitFor);
    }
    forall m | OneBit(m) && HasAny(waitFor, m) && HasAny(bits, m)
      ensures HasAny(bits, waitFor)
    {
      OneBitInBoth(bits, waitFor, m);
    }
  }

  lemma OneBitInBoth(bits: Bits, waitFor: Bits, m: Bits)
    requires OneBit(m) && HasAny(waitFor, m) && HasAny(bits, m)
    ensures HasAny(bits, waitFor)
  {
  }

  lemma AllIsEveryBit(bits: Bits, waitFor: Bits)
    ensures HasAll(bits, waitFor) <==> forall m :: OneBit(m) && HasAny(waitFor, m) ==> HasAny(bits, m)
  {
    hide HasAny, HasAll, OneBit;
    forall m | HasAll(bits, waitFor) && OneBit(m) && HasAny(waitFor, m)
      ensures HasAny(bits, m)
    {
      OneBitOfAll(bits, waitFor, m);
    }
    if !HasAll(bits, waitFor) {
      MissingBit(bits, waitFor);
    }
  }

  lemma OneBitOfAll(bits: Bits, waitFor: Bits, m: Bits)
    requires HasAll(bits, waitFor) && OneBit(m) && HasAny(waitFor, m)
    ensures HasAny(bits, m)
  {
  }

  lemma MissingBit(bits: Bits, waitFor: Bits)
    requires !HasAll(bits, waitFor)
    ensures var m := Lowest(waitFor & !bits); OneBit(m) && HasAny(waitFor, m) && !HasAny(bits, m)
  {
  }

  // ---------------------------------------------------------------------
  // Conditions
  // ---------------------------------------------------------------------

  // What is waited for has come, bit by bit: any of the bits, or all of them.
  ghost predicate Came(bits: Bits, waitFor: Bits, all: bool) {
    if all then forall m :: OneBit(m) && HasAny(waitFor, m) ==> HasAny(bits, m)
    else exists m :: OneBit(m) && HasAny(waitFor, m) && HasAny(bits, m)
  }

  // prvTestWaitCondition
  predicate Met(bits: Bits, waitFor: Bits, all: bool) {
    if all then HasAll(bits, waitFor) else HasAny(bits, waitFor)
  }

  lemma MetExactly(bits: Bits, waitFor: Bits, all: bool)
    ensures Met(bits, waitFor, all) <==> Came(bits, waitFor, all)
  {
    hide HasAny, HasAll, OneBit;
    AnyIsSomeBit(bits, waitFor);
    AllIsEveryBit(bits, waitFor);
  }

  function WaitsFor(value: Bits): Bits {
    AndNot(value, CONTROL)
  }

  predicate WaitsForAll(value: Bits) {
    HasAny(value, WAIT_FOR_ALL)
  }

  predicate ClearsOnExit(value: Bits) {
    HasAny(value, CLEAR_ON_EXIT)
  }

  predicate Satisfied(bits: Bits, value: Bits) {
    Met(bits, WaitsFor(value), WaitsForAll(value))
  }

  // The item value of a waiting task
  function Coded(waitFor: Bits, clear: bool, all: bool): Bits {
    waitFor | (if clear then CLEAR_ON_EXIT else 0) | (if all then WAIT_FOR_ALL else 0) | IN_USE
  }

  // A wait can be read back from the item value, and is not taken for a wake-up.
  lemma CodedReadsBack(waitFor: Bits, clear: bool, all: bool)
    requires !HasAny(waitFor, CONTROL)
    ensures WaitsFor(Coded(waitFor, clear, all)) == waitFor
    ensures WaitsForAll(Coded(waitFor, clear, all)) == all && ClearsOnExit(Coded(waitFor, clear, all)) == clear
    ensures !HasAny(Coded(waitFor, clear, all), UNBLOCKED_BY_SET)
  {
  }

  // The item value of a task woken by a set; the bits can be read back.
  function Delivered(bits: Bits): Bits {
    Or(bits, UNBLOCKED_BY_SET | IN_USE)
  }

  lemma DeliveredReadsBack(bits: Bits)
    requires !HasAny(bits, CONTROL)
    ensures WaitsFor(Delivered(bits)) == bits && HasAny(Delivered(bits), UNBLOCKED_BY_SET)
  {
  }

  // Clearing bits makes no condition true.
  lemma ClearingSatisfiesNobody(bits: Bits, clear: Bits, value: Bits)
    ensures Satisfied(AndNot(bits, clear), value) ==> Satisfied(bits, value)
  {
    hide HasAny, HasAll, AndNot, WaitsFor;
    AndNotAny(bits, clear, WaitsFor(value));
    AndNotAll(bits, clear, WaitsFor(value));
  }

  // ---------------------------------------------------------------------
  // What a set does
  // ---------------------------------------------------------------------

  datatype Group = Group(bits: Bits, waiting: seq<Tid>, value: map<Tid, Bits>)

  predicate Wakes(value: map<Tid, Bits>, bits: Bits, t: Tid) {
    t in value && Satisfied(bits, value[t])
  }

  function Remaining(waiting: seq<Tid>, value: map<Tid, Bits>, bits: Bits): seq<Tid> {
    if waiting == [] then []
    else Remaining(waiting[..|waiting| - 1], value, bits)
         + (if Wakes(value, bits, waiting[|waiting| - 1]) then [] else [waiting[|waiting| - 1]])
  }

  // The union of what the woken tasks clear
  function Cleared(waiting: seq<Tid>, value: map<Tid, Bits>, bits: Bits): Bits {
    if waiting == [] then 0
    else
      var t, c := waiting[|waiting| - 1], Cleared(waiting[..|waiting| - 1], value, bits);
      if Wakes(value, bits, t) && ClearsOnExit(value[t]) then Or(c, WaitsFor(value[t])) else c
  }

  function Deliver(waiting: seq<Tid>, value: map<Tid, Bits>, bits: Bits): map<Tid, Bits> {
    map t | t in value :: if t in waiting && Wakes(value, bits, t) then Delivered(bits) else value[t]
  }

  // xEventGroupSetBits, as a whole
  function SetOn(g: Group, set0: Bits): Group {
    var bits := Or(g.bits, set0);
    Group(AndNot(bits, Cleared(g.waiting, g.value, bits)), Remaining(g.waiting, g.value, bits),
          Deliver(g.waiting, g.value, bits))
  }

  // ---- in terms that do not depend on the order of the list ----

  lemma {:induction false} RemainingExactly(waiting: seq<Tid>, value: map<Tid, Bits>, bits: Bits, t: Tid)
    ensures t in Remaining(waiting, value, bits) <==> t in waiting && !Wakes(value, bits, t)
    decreases |waiting|
  {
    if waiting != [] {
      RemainingExactly(waiting[..|waiting| - 1], value, bits, t);
      assert waiting == waiting[..|waiting| - 1] + [waiting[|waiting| - 1]];
    }
  }

  predicate ClearsBit(value: map<Tid, Bits>, bits: Bits, t: Tid, m: Bits) {
    Wakes(value, bits, t) && ClearsOnExit(value[t]) && HasAny(WaitsFor(value[t]), m)
  }

  lemma {:induction false} ClearedExactly(waiting: seq<Tid>, value: map<Tid, Bits>, bits: Bits, m: Bits)
    ensures HasAny(Cleared(waiting, value, bits), m) <==> exists t :: t in waiting && ClearsBit(value, bits, t, m)
    decreases |waiting|
  {
    hide ClearsOnExit, WaitsFor, Satisfied, HasAny, Or;
    NothingHas(m);
    if waiting != [] {
      var last := waiting[|waiting| - 1];
      var front := waiting[..|waiting| - 1];
      ClearedExactly(front, value, bits, m);
      assert waiting == front + [last];
      if Wakes(value, bits, last) {
        OrHas(Cleared(front, value, bits), WaitsFor(value[last]), m);
      }
      assert ClearsBit(value, bits, last, m) ==> last in waiting;
    }
  }

  // A waiting task that goes when these bits are set: any of what it waits for is
  // among them, or all of it is.
  ghost predicate Goes(g: Group, bits: Bits, t: Tid) {
    t in g.waiting && t in g.value && Came(bits, WaitsFor(g.value[t]), WaitsForAll(g.value[t]))
  }

  lemma GoesExactly(g: Group, bits: Bits, t: Tid)
    ensures Goes(g, bits, t) <==> t in g.waiting && Wakes(g.value, bits, t)
  {
    hide HasAny, HasAll, OneBit, WaitsFor, WaitsForAll, Met, Came;
    if t in g.value {
      MetExactly(bits, WaitsFor(g.value[t]), WaitsForAll(g.value[t]));
    }
  }

  // A set wakes exactly the tasks whose bits have come once all the new ones are in,
  // any or all as each has asked, whatever their order on the list; it leaves each bit
  // exactly if it was there or has been set and no task it woke clears it.
  lemma SetIsExact(g: Group, set0: Bits, t: Tid, m: Bits)
    requires OneBit(m)
    ensures var bits, g1 := Or(g.bits, set0), SetOn(g, set0);
            && (t in g1.waiting <==> t in g.waiting && !Goes(g, bits, t))
            && (t in g1.value <==> t in g.value)
            && (t in g.value ==> g1.value[t] == if Goes(g, bits, t) then Delivered(bits) else g.value[t])
            && (HasAny(bits, m) <==> HasAny(g.bits, m) || HasAny(set0, m))
            && (HasAny(g1.bits, m) <==>
                  HasAny(bits, m)
                  && !exists u :: Goes(g, bits, u) && TakesAway(g.value, u, m))
  {
    hide Wakes, Goes, OneBit, HasAny, AndNot, Or, Delivered, ClearsOnExit, WaitsFor;
    var bits := Or(g.bits, set0);
    GoesExactly(g, bits, t);
    RemainingExactly(g.waiting, g.value, bits, t);
    ClearedExactly(g.waiting, g.value, bits, m);
    OrHas(g.bits, set0, m);
    AndNotHas(bits, Cleared(g.waiting, g.value, bits), m);
    forall u
      ensures u in g.waiting && ClearsBit(g.value, bits, u, m)
         <==> Goes(g, bits, u) && TakesAway(g.value, u, m)
    {
      GoesAndClears(g, bits, u, m);
    }
  }

  lemma GoesAndClears(g: Group, bits: Bits, u: Tid, m: Bits)
    ensures u in g.waiting && ClearsBit(g.value, bits, u, m) <==> Goes(g, bits, u) && TakesAway(g.value, u, m)
  {
    hide HasAny, ClearsOnExit, WaitsFor, WaitsForAll, Came, Satisfied;
    GoesExactly(g, bits, u);
  }

  // The task clears this bit when it goes.
  predicate TakesAway(value: map<Tid, Bits>, t: Tid, m: Bits) {
    t in value && ClearsOnExit(value[t]) && HasAny(WaitsFor(value[t]), m)
  }

  // ---------------------------------------------------------------------
  // The calls
  // ---------------------------------------------------------------------

  datatype Outcome = Returned(bits: Bits) | Blocked

  datatype Result = Result(group: Group, outcome: Outcome)

  function BlockOn(g: Group, t: Tid, value: Bits): Group {
    g.(waiting := g.waiting + [t], value := g.value[t := value])
  }

  // xEventGroupWaitBits up to the point where it returns or blocks
  function WaitOn(g: Group, t: Tid, waitFor: Bits, clear: bool, all: bool, mayBlock: bool): Result {
    if Met(g.bits, waitFor, all) then
      Result(if clear then g.(bits := AndNot(g.bits, waitFor)) else g, Returned(g.bits))
    else if !mayBlock then Result(g, Returned(g.bits))
    else Result(BlockOn(g, t, Coded(waitFor, clear, all)), Blocked)
  }

  // xEventGroupSync up to the point where it returns or blocks
  function SyncOn(g: Group, t: Tid, set0: Bits, waitFor: Bits, mayBlock: bool): Result {
    var bits, g1 := Or(g.bits, set0), SetOn(g, set0);
    if HasAll(bits, waitFor) then Result(g1.(bits := AndNot(g1.bits, waitFor)), Returned(bits))
    else if mayBlock then Result(BlockOn(g1, t, Coded(waitFor, true, true)), Blocked)
    else Result(g1, Returned(g1.bits))
  }

  // A wait returns at once exactly if what it waits for is there, any of the bits or
  // all as asked, with the bits as they were; it takes its own bits away exactly if
  // asked to; and otherwise it changes no bit, and waits if it may.
  lemma WaitIsExact(g: Group, t: Tid, waitFor: Bits, clear: bool, all: bool, mayBlock: bool, m: Bits)
    requires OneBit(m) && !HasAny(waitFor, CONTROL)
    ensures var r := WaitOn(g, t, waitFor, clear, all, mayBlock);
            && (r.outcome == Blocked <==> mayBlock && !Came(g.bits, waitFor, all))
            && (r.outcome.Returned? ==>
                  r.outcome.bits == g.bits && r.group.waiting == g.waiting && r.group.value == g.value)
            && (r.outcome.Blocked? ==>
                  && r.group.waiting == g.waiting + [t] && t in r.group.value
                  && WaitsFor(r.group.value[t]) == waitFor
                  && WaitsForAll(r.group.value[t]) == all && ClearsOnExit(r.group.value[t]) == clear)
            && (HasAny(r.group.bits, m)
                <==> HasAny(g.bits, m) && !(Came(g.bits, waitFor, all) && clear && HasAny(waitFor, m)))
  {
    hide HasAny, HasAll, OneBit, AndNot, Met, Came, Coded, WaitsFor, WaitsForAll, ClearsOnExit;
    MetExactly(g.bits, waitFor, all);
    AndNotHas(g.bits, waitFor, m);
    CodedReadsBack(waitFor, clear, all);
  }

  // A rendezvous call sets its bits, with all that a set does; it returns at once
  // exactly if all the bits of the rendezvous have then come, and takes them away.
  lemma SyncIsExact(g: Group, t: Tid, set0: Bits, waitFor: Bits, mayBlock: bool, m: Bits)
    requires OneBit(m) && !HasAny(waitFor, CONTROL)
    ensures var r, bits, g1 := SyncOn(g, t, set0, waitFor, mayBlock), Or(g.bits, set0), SetOn(g, set0);
            && (r.outcome == Blocked <==> mayBlock && !Came(bits, waitFor, true))
            && (r.outcome.Returned? ==>
                  && r.outcome.bits == (if Came(bits, waitFor, true) then bits else g1.bits)
                  && r.group.waiting == g1.waiting && r.group.value == g1.value)
            && (r.outcome.Blocked? ==>
                  && r.group.waiting == g1.waiting + [t] && t in r.group.value
                  && WaitsFor(r.group.value[t]) == waitFor
                  && WaitsForAll(r.group.value[t]) && ClearsOnExit(r.group.value[t]))
            && (HasAny(r.group.bits, m)
                <==> HasAny(g1.bits, m) && !(Came(bits, waitFor, true) && HasAny(waitFor, m)))
  {
    hide HasAny, HasAll, OneBit, AndNot, Or, Came, Coded, WaitsFor, WaitsForAll, ClearsOnExit, SetOn;
    AllIsEveryBit(Or(g.bits, set0), waitFor);
    CameAll(Or(g.bits, set0), waitFor);
    AndNotHas(SetOn(g, set0).bits, waitFor, m);
    CodedReadsBack(waitFor, true, true);
  }

  lemma CameAll(bits: Bits, waitFor: Bits)
    ensures Came(bits, waitFor, true) <==> HasAll(bits, waitFor)
  {
    hide HasAny, HasAll, OneBit;
    AllIsEveryBit(bits, waitFor);
  }

  // No listed task's condition holds, each listed value codes a wait, and only
  // event bits are set.
  ghost predicate Quiescent(g: Group) {
    && !HasAny(g.bits, CONTROL) && Distinct(g.waiting)
    && forall t :: t in g.waiting ==>
         t in g.value && !HasAny(g.value[t], UNBLOCKED_BY_SET) && !Satisfied(g.bits, g.value[t])
  }

  lemma ClearKeepsQuiescent(g: Group, clear: Bits)
    requires Quiescent(g)
    ensures Quiescent(g.(bits := AndNot(g.bits, clear)))
  {
    hide Satisfied, HasAny, AndNot;
    AndNotAny(g.bits, clear, CONTROL);
    forall t | t in g.waiting
      ensures !Satisfied(AndNot(g.bits, clear), g.value[t])
    {
      ClearingSatisfiesNobody(g.bits, clear, g.value[t]);
    }
  }

  lemma {:induction false} RemainingDistinct(waiting: seq<Tid>, value: map<Tid, Bits>, bits: Bits)
    requires Distinct(waiting)
    ensures Distinct(Remaining(waiting, value, bits))
    decreases |waiting|
  {
    hide Wakes;
    if waiting != [] {
      RemainingDistinct(waiting[..|waiting| - 1], value, bits);
      RemainingExactly(waiting[..|waiting| - 1], value, bits, waiting[|waiting| - 1]);
    }
  }

  // After a set, too, nobody listed could go.
  lemma SetKeepsQuiescent(g: Group, set0: Bits)
    requires Quiescent(g) && !HasAny(set0, CONTROL)
    ensures Quiescent(SetOn(g, set0)) && !HasAny(Or(g.bits, set0), CONTROL)
    ensures forall t :: t in SetOn(g, set0).waiting ==> t in g.waiting
  {
    hide Satisfied, HasAny, AndNot, Or, Delivered;
    var bits, g1 := Or(g.bits, set0), SetOn(g, set0);
    OrHas(g.bits, set0, CONTROL);
    AndNotAny(bits, Cleared(g.waiting, g.value, bits), CONTROL);
    RemainingDistinct(g.waiting, g.value, bits);
    forall t | t in g1.waiting
      ensures t in g.waiting && t in g1.value && g1.value[t] == g.value[t] && !Satisfied(g1.bits, g1.value[t])
    {
      RemainingExactly(g.waiting, g.value, bits, t);
      ClearingSatisfiesNobody(bits, Cleared(g.waiting, g.value, bits), g.value[t]);
    }
  }

  lemma BlockKeepsQuiescent(g: Group, t: Tid, waitFor: Bits, clear: bool, all: bool)
    requires Quiescent(g) && t !in g.waiting && !HasAny(waitFor, CONTROL) && !Met(g.bits, waitFor, all)
    ensures Quiescent(BlockOn(g, t, Coded(waitFor, clear, all)))
  {
    hide HasAny, Met, Coded, WaitsFor;
    CodedReadsBack(waitFor, clear, all);
  }

  // Waiting keeps it; a task that returns with bits that meet its condition gets
  // the bits as they were, and one that asked for it takes its bits away.
  lemma WaitKeepsQuiescent(g: Group, t: Tid, waitFor: Bits, clear: bool, all: bool, mayBlock: bool)
    requires Quiescent(g) && t !in g.waiting && !HasAny(waitFor, CONTROL)
    ensures Quiescent(WaitOn(g, t, waitFor, clear, all, mayBlock).group)
  {
    hide HasAny, Met, Coded, Quiescent, AndNot, BlockOn;
    ClearKeepsQuiescent(g, waitFor);
    if !Met(g.bits, waitFor, all) {
      BlockKeepsQuiescent(g, t, waitFor, clear, all);
    }
  }

  lemma SetMeets(bits: Bits, clear: Bits, waitFor: Bits)
    ensures !HasAll(bits, waitFor) ==> !Met(AndNot(bits, clear), waitFor, true)
  {
    hide HasAll, AndNot;
    AndNotAll(bits, clear, waitFor);
  }

  lemma SyncKeepsQuiescent(g: Group, t: Tid, set0: Bits, waitFor: Bits, mayBlock: bool)
    requires Quiescent(g) && t !in g.waiting && !HasAny(set0, CONTROL) && !HasAny(waitFor, CONTROL)
    ensures Quiescent(SyncOn(g, t, set0, waitFor, mayBlock).group)
  {
    var bits, g1 := Or(g.bits, set0), SetOn(g, set0);
    SetMeets(bits, Cleared(g.waiting, g.value, bits), waitFor);
    hide HasAny, HasAll, Met, Coded, Quiescent, AndNot, BlockOn, Or;
    SetKeepsQuiescent(g, set0);
    ClearKeepsQuiescent(g1, waitFor);
    if !HasAll(bits, waitFor) {
      BlockKeepsQuiescent(g1, t, waitFor, true, true);
    }
  }

  // What a task does when it runs again after blocking in either call, for a
  // rendezvous with both flags set; its item value is put back to normal.
  function FinishOn(g: Group, t: Tid, waitFor: Bits, clear: bool, all: bool, normal: Bits): Result
    requires t in g.value
  {
    var g1 := g.(value := g.value[t := normal]);
    if HasAny(g.value[t], UNBLOCKED_BY_SET) then Result(g1, Returned(AndNot(g.value[t], CONTROL)))
    else
      Result(if Met(g.bits, waitFor, all) && clear then g1.(bits := AndNot(g.bits, waitFor)) else g1,
             Returned(AndNot(g.bits, CONTROL)))
  }

  lemma FinishKeepsQuiescent(g: Group, t: Tid, waitFor: Bits, clear: bool, all: bool, normal: Bits)
    requires Quiescent(g) && t in g.value && t !in g.waiting
    ensures Quiescent(FinishOn(g, t, waitFor, clear, all, normal).group)
  {
    hide HasAny, Met, AndNot, Satisfied;
    ClearKeepsQuiescent(g, waitFor);
  }

  // ---------------------------------------------------------------------
  // Runs
  // ---------------------------------------------------------------------

  // The critical sections of the calls on one group, by any tasks in any order
  datatype Op =
    | Set(set0: Bits)
    | Clear(clear0: Bits)
    | Wait(t: Tid, waitFor: Bits, clear: bool, all: bool, mayBlock: bool)
    | Sync(t: Tid, set0: Bits, waitFor: Bits, mayBlock: bool)
    | TimeOut(t: Tid)
    | Finish(t: Tid, waitFor: Bits, clear: bool, all: bool, normal: Bits)

  predicate Enabled(g: Group, op: Op) {
    match op
    case Set(set0) => !HasAny(set0, CONTROL)
    case Clear(clear) => !HasAny(clear, CONTROL)
    case Wait(t, waitFor, _, _, _) => t !in g.waiting && !HasAny(waitFor, CONTROL)
    case Sync(t, set0, waitFor, _) => t !in g.waiting && !HasAny(set0, CONTROL) && !HasAny(waitFor, CONTROL)
    case TimeOut(t) => t in g.waiting
    case Finish(t, _, _, _, _) => t !in g.waiting && t in g.value
  }

  function Apply(g: Group, op: Op): Group
    requires Enabled(g, op)
  {
    match op
    case Set(set0) => SetOn(g, set0)
    case Clear(clear) => g.(bits := AndNot(g.bits, clear))
    case Wait(t, waitFor, clear, all, mayBlock) => WaitOn(g, t, waitFor, clear, all, mayBlock).group
    case Sync(t, set0, waitFor, mayBlock) => SyncOn(g, t, set0, waitFor, mayBlock).group
    case TimeOut(t) => g.(waiting := DropAt(g.waiting, IndexOf(g.waiting, t)))
    case Finish(t, waitFor, clear, all, normal) => FinishOn(g, t, waitFor, clear, all, normal).group
  }

  lemma TimeOutKeepsQuiescent(g: Group, t: Tid)
    requires Quiescent(g) && t in g.waiting
    ensures Quiescent(g.(waiting := DropAt(g.waiting, IndexOf(g.waiting, t))))
    ensures forall u :: u in DropAt(g.waiting, IndexOf(g.waiting, t)) <==> u in g.waiting && u != t
  {
    hide HasAny, Satisfied;
    DropAtDistinct(g.waiting, IndexOf(g.waiting, t));
  }

  // After every operation no listed task's condition holds.
  lemma OpKeepsQuiescent(g: Group, op: Op)
    requires Quiescent(g) && Enabled(g, op)
    ensures Quiescent(Apply(g, op))
  {
    hide Quiescent, HasAny, SetOn, WaitOn, SyncOn, FinishOn, AndNot, DropAt, IndexOf;
    match op
    case Set(set0) => SetKeepsQuiescent(g, set0);
    case Clear(clear) => ClearKeepsQuiescent(g, clear);
    case Wait(t, waitFor, clear, all, mayBlock) => WaitKeepsQuiescent(g, t, waitFor, clear, all, mayBlock);
    case Sync(t, set0, waitFor, mayBlock) => SyncKeepsQuiescent(g, t, set0, waitFor, mayBlock);
    case TimeOut(t) => TimeOutKeepsQuiescent(g, t);
    case Finish(t, waitFor, clear, all, normal) => FinishKeepsQuiescent(g, t, waitFor, clear, all, normal);
  }

  ghost predicate Run(g: Group, ops: seq<Op>)
    decreases |ops|
  {
    ops == [] || (Enabled(g, ops[0]) && Run(Apply(g, ops[0]), ops[1..]))
  }

  ghost function Final(g: Group, ops: seq<Op>): Group
    requires Run(g, ops)
    decreases |ops|
  {
    if ops == [] then g else Final(Apply(g, ops[0]), ops[1..])
  }

  lemma {:induction false} RunKeepsQuiescent(g: Group, ops: seq<Op>)
    requires Quiescent(g) && Run(g, ops)
    ensures Quiescent(Final(g, ops))
    decreases |ops|
  {
    hide Quiescent, Apply, Enabled;
    if ops != [] {
      OpKeepsQuiescent(g, ops[0]);
      RunKeepsQuiescent(Apply(g, ops[0]), ops[1..]);
    }
  }

  // ---- what becomes of a task that blocks ----

  // A step of the task's own
  predicate Acts(op: Op, t: Tid) {
    (op.Wait? || op.Sync? || op.Finish?) && op.t == t
  }

  ghost predicate Idle(ops: seq<Op>, t: Tid) {
    forall i :: 0 <= i < |ops| ==> !Acts(ops[i], t)
  }

  predicate SetsBits(op: Op) {
    op.Set? || op.Sync?
  }

  datatype Fate = Waiting | Woken(bits: Bits) | TimedOut

  // It waits until the first operation that takes it off the list: a set, which
  // hands it the bits as they stand with the new ones in, or its time-out.
  ghost function FateOf(g: Group, ops: seq<Op>, t: Tid): Fate
    requires Run(g, ops)
    decreases |ops|
  {
    if ops == [] then Waiting
    else if t in Apply(g, ops[0]).waiting then FateOf(Apply(g, ops[0]), ops[1..], t)
    else if SetsBits(ops[0]) then Woken(Or(g.bits, ops[0].set0))
    else TimedOut
  }

  // The task waits with a coded wait.
  ghost predicate Listed(g: Group, t: Tid, value: Bits) {
    t in g.waiting && t in g.value && g.value[t] == value
  }

  // It is off the list, with a value it has yet to read.
  ghost predicate Holds(g: Group, t: Tid, value: Bits) {
    t !in g.waiting && t in g.value && g.value[t] == value
  }

  lemma SetOnListed(g: Group, set0: Bits, t: Tid, value: Bits)
    requires Listed(g, t, value)
    ensures var bits, g1 := Or(g.bits, set0), SetOn(g, set0);
            if Satisfied(bits, value) then Holds(g1, t, Delivered(bits)) else Listed(g1, t, value)
  {
    hide HasAny, AndNot, Or, Delivered, Cleared, Satisfied, Remaining;
    RemainingExactly(g.waiting, g.value, Or(g.bits, set0), t);
  }

  lemma SetOnHolding(g: Group, set0: Bits, t: Tid, value: Bits)
    requires Holds(g, t, value)
    ensures Holds(SetOn(g, set0), t, value)
  {
    hide HasAny, AndNot, Or, Delivered, Cleared, Satisfied, Remaining;
    RemainingExactly(g.waiting, g.value, Or(g.bits, set0), t);
  }

  // One operation of another task, or a time-out
  lemma ListedStep(g: Group, op: Op, t: Tid, value: Bits)
    requires Quiescent(g) && Enabled(g, op) && !Acts(op, t) && Listed(g, t, value)
    ensures var g1 := Apply(g, op);
            if SetsBits(op) && Satisfied(Or(g.bits, op.set0), value) then Holds(g1, t, Delivered(Or(g.bits, op.set0)))
            else if op == TimeOut(t) then Holds(g1, t, value)
            else Listed(g1, t, value)
  {
    hide Quiescent, HasAny, HasAll, AndNot, Or, Delivered, Satisfied, SetOn, Coded;
    match op
    case Set(set0) => SetOnListed(g, set0, t, value);
    case Sync(_, set0, _, _) => SetOnListed(g, set0, t, value);
    case TimeOut(u) => TimeOutKeepsQuiescent(g, u);
    case _ =>
  }

  lemma HoldingStep(g: Group, op: Op, t: Tid, value: Bits)
    requires Quiescent(g) && Enabled(g, op) && !Acts(op, t) && Holds(g, t, value)
    ensures Holds(Apply(g, op), t, value)
  {
    hide Quiescent, HasAny, HasAll, AndNot, Or, Delivered, Satisfied, SetOn, Coded;
    match op
    case Set(set0) => SetOnHolding(g, set0, t, value);
    case Sync(_, set0, _, _) => SetOnHolding(g, set0, t, value);
    case TimeOut(u) => TimeOutKeepsQuiescent(g, u);
    case _ =>
  }

  lemma {:induction false} HoldingRun(g: Group, ops: seq<Op>, t: Tid, value: Bits)
    requires Quiescent(g) && Run(g, ops) && Idle(ops, t) && Holds(g, t, value)
    ensures Holds(Final(g, ops), t, value)
    decreases |ops|
  {
    hide Quiescent, Apply, Enabled, Acts, Holds;
    if ops != [] {
      HoldingStep(g, ops[0], t, value);
      OpKeepsQuiescent(g, ops[0]);
      HoldingRun(Apply(g, ops[0]), ops[1..], t, value);
    }
  }

  // Over any run of other tasks' operations: while it waits its condition does not
  // hold, and if it is woken it holds the bits that met its condition.
  lemma {:induction false} FateIs(g: Group, ops: seq<Op>, t: Tid, value: Bits)
    requires Quiescent(g) && Run(g, ops) && Idle(ops, t) && Listed(g, t, value)
    ensures var g1 := Final(g, ops);
            match FateOf(g, ops, t)
            case Waiting => Listed(g1, t, value) && !Satisfied(g1.bits, value)
            case Woken(bits) => Holds(g1, t, Delivered(bits)) && Satisfied(bits, value) && !HasAny(bits, CONTROL)
            case TimedOut => Holds(g1, t, value)
    decreases |ops|
  {
    if ops == [] {
      hide HasAny, Satisfied;
    } else {
      var g1 := Apply(g, ops[0]);
      OpKeepsQuiescent(g, ops[0]);
      ListedStep(g, ops[0], t, value);
      SetIsClean(g, ops[0]);
      hide Quiescent, Apply, Enabled, Acts, Satisfied, HasAny, Or, Delivered;
      if t in g1.waiting {
        FateIs(g1, ops[1..], t, value);
      } else {
        HoldingRun(g1, ops[1..], t, g1.value[t]);
      }
    }
  }

  lemma SetIsClean(g: Group, op: Op)
    requires Quiescent(g) && Enabled(g, op)
    ensures SetsBits(op) ==> !HasAny(Or(g.bits, op.set0), CONTROL)
  {
    if SetsBits(op) {
      hide HasAny, Or;
      OrHas(g.bits, op.set0, CONTROL);
    }
  }

  // What the call returns, whatever other tasks have done on the group since it
  // blocked: if it was woken, the bits as they stood when its condition came true,
  // before anybody cleared any, and it does hold for them; if its time ran out,
  // the bits as they are, which are taken away if they happen to meet it now.
  lemma BlockedCallReturns(g: Group, ops: seq<Op>, t: Tid, waitFor: Bits, clear: bool, all: bool, normal: Bits)
    requires Quiescent(g) && Run(g, ops) && Idle(ops, t) && !HasAny(waitFor, CONTROL)
    requires Listed(g, t, Coded(waitFor, clear, all))
    ensures var g1 := Final(g, ops);
            match FateOf(g, ops, t)
            case Waiting => t in g1.waiting && !Came(g1.bits, waitFor, all)
            case Woken(bits) =>
              && t in g1.value && Came(bits, waitFor, all)
              && FinishOn(g1, t, waitFor, clear, all, normal)
                 == Result(g1.(value := g1.value[t := normal]), Returned(bits))
            case TimedOut =>
              && t in g1.value
              && FinishOn(g1, t, waitFor, clear, all, normal).outcome == Returned(g1.bits)
              && FinishOn(g1, t, waitFor, clear, all, normal).group
                 == Group(if clear && Came(g1.bits, waitFor, all) then AndNot(g1.bits, waitFor) else g1.bits,
                          g1.waiting, g1.value[t := normal])
  {
    var g1 := Final(g, ops);
    RunKeepsQuiescent(g, ops);
    FateIs(g, ops, t, Coded(waitFor, clear, all));
    CodedReadsBack(waitFor, clear, all);
    CleanBits(g1.bits);
    MetExactly(g1.bits, waitFor, all);
    match FateOf(g, ops, t) {
      case Woken(bits) =>
        DeliveredReadsBack(bits);
        MetExactly(bits, waitFor, all);
      case _ =>
    }
    hide HasAny, HasAll, AndNot, Or, Delivered, Coded, Final, Run, Met, Came;
  }

  lemma CleanBits(bits: Bits)
    ensures !HasAny(bits, CONTROL) ==> AndNot(bits, CONTROL) == bits
  {
  }

  // ---------------------------------------------------------------------
  // Rendezvous
  // ---------------------------------------------------------------------

  // Tasks that wait for the same rendezvous have the same fate, unless one of them
  // times out: whatever else happens on the group, the same operation releases
  // both, and with the same bits.
  lemma {:induction false} ReleasedTogether(g: Group, ops: seq<Op>, t: Tid, u: Tid, value: Bits)
    requires Quiescent(g) && Run(g, ops) && Idle(ops, t) && Idle(ops, u) && Listed(g, t, value) && Listed(g, u, value)
    requires forall i :: 0 <= i < |ops| ==> ops[i] != TimeOut(t) && ops[i] != TimeOut(u)
    ensures FateOf(g, ops, t) == FateOf(g, ops, u) != TimedOut
    decreases |ops|
  {
    if ops != [] {
      hide Quiescent, Apply, Enabled, Acts, Satisfied, HasAny, Or, Delivered;
      OpKeepsQuiescent(g, ops[0]);
      ListedStep(g, ops[0], t, value);
      ListedStep(g, ops[0], u, value);
      if t in Apply(g, ops[0]).waiting {
        ReleasedTogether(Apply(g, ops[0]), ops[1..], t, u, value);
      }
    }
  }

  // t called xEventGroupSync for these bits somewhere in the run, blocked, and has
  // waited ever since.
  ghost predicate Joined(g: Group, ops: seq<Op>, t: Tid, all: Bits)
    requires Run(g, ops)
    decreases |ops|
  {
    ops != [] && (
      || Joined(Apply(g, ops[0]), ops[1..], t, all)
      || (ops[0].Sync? && ops[0].t == t && ops[0].waitFor == all && ops[0].mayBlock
          && t in Apply(g, ops[0]).waiting && Idle(ops[1..], t)
          && FateOf(Apply(g, ops[0]), ops[1..], t) == Waiting))
  }

  lemma SyncLists(g: Group, t: Tid, set0: Bits, all: Bits)
    requires Quiescent(g) && Enabled(g, Sync(t, set0, all, true)) && t in SyncOn(g, t, set0, all, true).group.waiting
    ensures Listed(SyncOn(g, t, set0, all, true).group, t, Coded(all, true, true))
  {
    hide HasAny, HasAll, AndNot, Or, Coded, Quiescent, SetOn;
    SetKeepsQuiescent(g, set0);
  }

  lemma {:induction false} JoinedIsListed(g: Group, ops: seq<Op>, t: Tid, all: Bits)
    requires Quiescent(g) && Run(g, ops) && Joined(g, ops, t, all)
    ensures Listed(Final(g, ops), t, Coded(all, true, true))
    decreases |ops|
  {
    hide Quiescent, Enabled, Coded, Satisfied, HasAny;
    OpKeepsQuiescent(g, ops[0]);
    if Joined(Apply(g, ops[0]), ops[1..], t, all) {
      JoinedIsListed(Apply(g, ops[0]), ops[1..], t, all);
    } else {
      SyncLists(g, t, ops[0].set0, all);
      FateIs(Apply(g, ops[0]), ops[1..], t, Coded(all, true, true));
    }
  }

  // The call that completes the bits of a rendezvous, with any operations and any
  // other waiting tasks before it: it returns at once with all the bits; every task
  // that had joined is off the list and has been handed the same bits; and none of
  // the bits is set any more.
  lemma RendezvousReleasesAll(g: Group, ops: seq<Op>, all: Bits, u: Tid, set0: Bits, mayBlock: bool)
    requires Quiescent(g) && Run(g, ops) && Enabled(Final(g, ops), Sync(u, set0, all, mayBlock))
    requires HasAll(Or(Final(g, ops).bits, set0), all)
    ensures var g1, bits := Final(g, ops), Or(Final(g, ops).bits, set0);
            var r := SyncOn(g1, u, set0, all, mayBlock);
            && r.outcome == Returned(bits)
            && (forall m :: HasAny(all, m) && OneBit(m) ==> !HasAny(r.group.bits, m))
            && (forall t :: Joined(g, ops, t, all) ==> Holds(r.group, t, Delivered(bits)))
  {
    var g1, bits := Final(g, ops), Or(Final(g, ops).bits, set0);
    var r := SyncOn(g1, u, set0, all, mayBlock);
    SyncReturns(g1, u, set0, all, mayBlock);
    RunKeepsQuiescent(g, ops);
    hide Quiescent, HasAny, HasAll, AndNot, Or, Coded, Delivered, OneBit, Enabled, SyncOn, Final, Run, Joined,
         FinishOn, Holds;
    forall m | HasAny(all, m) && OneBit(m)
      ensures !HasAny(r.group.bits, m)
    {
      AndNotHas(SetOn(g1, set0).bits, all, m);
    }
    forall t | Joined(g, ops, t, all)
      ensures Holds(r.group, t, Delivered(bits))
    {
      JoinedIsListed(g, ops, t, all);
      SyncHandsOver(g1, u, set0, all, mayBlock, t);
    }
  }

  // Whatever happens on the group after that, each of their calls returns those bits.
  lemma RendezvousReturns(g: Group, ops: seq<Op>, all: Bits, u: Tid, set0: Bits, mayBlock: bool, t: Tid,
                          later: seq<Op>, normal: Bits)
    requires Quiescent(g) && Run(g, ops) && Enabled(Final(g, ops), Sync(u, set0, all, mayBlock))
    requires HasAll(Or(Final(g, ops).bits, set0), all) && Joined(g, ops, t, all)
    requires Run(SyncOn(Final(g, ops), u, set0, all, mayBlock).group, later) && Idle(later, t)
    ensures var g2 := Final(SyncOn(Final(g, ops), u, set0, all, mayBlock).group, later);
            && t in g2.value
            && FinishOn(g2, t, all, true, true, normal).outcome == Returned(Or(Final(g, ops).bits, set0))
  {
    var g1, bits := Final(g, ops), Or(Final(g, ops).bits, set0);
    var step := Sync(u, set0, all, mayBlock);
    assert SyncOn(g1, u, set0, all, mayBlock).group == Apply(g1, step);
    RunKeepsQuiescent(g, ops);
    OpKeepsQuiescent(g1, step);
    SetIsClean(g1, step);
    RendezvousReleasesAll(g, ops, all, u, set0, mayBlock);
    hide Quiescent, HasAny, HasAll, AndNot, Or, Delivered, OneBit, Enabled, SyncOn, Apply, Final, Run, Joined,
         FinishOn, Holds;
    HoldingRun(Apply(g1, step), later, t, Delivered(bits));
    HolderReturns(Final(Apply(g1, step), later), t, bits, all, normal);
  }

  lemma SyncReturns(g: Group, u: Tid, set0: Bits, all: Bits, mayBlock: bool)
    requires HasAll(Or(g.bits, set0), all)
    ensures var r := SyncOn(g, u, set0, all, mayBlock);
            r.outcome == Returned(Or(g.bits, set0)) && r.group.bits == AndNot(SetOn(g, set0).bits, all)
  {
  }

  // Every task that waits for the same rendezvous is handed the bits.
  lemma SyncHandsOver(g: Group, u: Tid, set0: Bits, all: Bits, mayBlock: bool, t: Tid)
    requires Listed(g, t, Coded(all, true, true)) && HasAll(Or(g.bits, set0), all) && !HasAny(all, CONTROL)
    ensures Holds(SyncOn(g, u, set0, all, mayBlock).group, t, Delivered(Or(g.bits, set0)))
  {
    hide HasAny, HasAll, AndNot, Or, Coded, Delivered, WaitsFor, WaitsForAll, SetOn;
    CodedReadsBack(all, true, true);
    SetOnListed(g, set0, t, Coded(all, true, true));
  }

  lemma HolderReturns(g: Group, t: Tid, bits: Bits, all: Bits, normal: Bits)
    requires Holds(g, t, Delivered(bits)) && !HasAny(bits, CONTROL)
    ensures t in g.value && FinishOn(g, t, all, true, true, normal).outcome == Returned(bits)
  {
    DeliveredReadsBack(bits);
    hide HasAny, AndNot, Delivered;
  }

  // ---------------------------------------------------------------------
  // The code
  // ---------------------------------------------------------------------

  lemma QuiescentGives(g: Group)
    requires Quiescent(g)
    ensures Distinct(g.waiting) && forall t :: t in g.waiting ==> t in g.value
  {
  }

  // One more item of the waiting list
  lemma WalkRemaining(all: seq<Tid>, value: map<Tid, Bits>, bits: Bits, n: nat)
    requires n < |all| && all[n] in value
    ensures Remaining(all[..n + 1], value, bits)
         == Remaining(all[..n], value, bits) + (if Satisfied(bits, value[all[n]]) then [] else [all[n]])
    ensures Cleared(all[..n + 1], value, bits)
         == if Satisfied(bits, value[all[n]]) && ClearsOnExit(value[all[n]])
            then Or(Cleared(all[..n], value, bits), WaitsFor(value[all[n]])) else Cleared(all[..n], value, bits)
  {
    hide Satisfied, ClearsOnExit, WaitsFor, Or;
    assert all[..n + 1][..n] == all[..n];
  }

  lemma WalkDeliver(all: seq<Tid>, value: map<Tid, Bits>, bits: Bits, n: nat)
    requires n < |all| && Distinct(all) && all[n] in value
    ensures all[n] in Deliver(all[..n], value, bits) && Deliver(all[..n], value, bits)[all[n]] == value[all[n]]
    ensures Deliver(all[..n + 1], value, bits)
         == if Satisfied(bits, value[all[n]]) then Deliver(all[..n], value, bits)[all[n] := Delivered(bits)]
            else Deliver(all[..n], value, bits)
  {
    hide Satisfied, Delivered;
    assert all[..n + 1] == all[..n] + [all[n]];
    assert all[n] !in all[..n];
  }

  lemma WalkStart(all: seq<Tid>, value: map<Tid, Bits>, bits: Bits)
    ensures all[..0] == [] && Remaining([], value, bits) + all[0..] == all
    ensures Cleared([], value, bits) == 0 && Deliver([], value, bits) == value
  {
  }

  // Taking off the head of what is still to be walked
  lemma WalkDrop(kept: seq<Tid>, all: seq<Tid>, n: nat)
    requires n < |all|
    ensures (kept + all[n..])[|kept|] == all[n] && DropAt(kept + all[n..], |kept|) == kept + all[n + 1..]
    ensures kept + all[n..] == kept + [all[n]] + all[n + 1..]
  {
  }

  // The walk over the list has come to its n-th task.
  ghost predicate Walked(all: seq<Tid>, v: map<Tid, Bits>, bits: Bits, n: nat, waiting: seq<Tid>, value: map<Tid, Bits>,
                         i: nat, clear: Bits) {
    && n <= |all| && Distinct(all) && (forall t :: t in all ==> t in v)
    && waiting == Remaining(all[..n], v, bits) + all[n..] && i == |Remaining(all[..n], v, bits)|
    && clear == Cleared(all[..n], v, bits) && value == Deliver(all[..n], v, bits)
  }

  lemma WalkedStart(all: seq<Tid>, v: map<Tid, Bits>, bits: Bits)
    requires Distinct(all) && forall t :: t in all ==> t in v
    ensures Walked(all, v, bits, 0, all, v, 0, 0)
  {
    hide Distinct;
    WalkStart(all, v, bits);
  }

  lemma WalkedStep(all: seq<Tid>, v: map<Tid, Bits>, bits: Bits, n: nat, waiting: seq<Tid>, value: map<Tid, Bits>,
                   i: nat, clear: Bits)
    requires Walked(all, v, bits, n, waiting, value, i, clear) && i < |waiting|
    ensures n < |all| && waiting[i] in value
    ensures var t := waiting[i];
            if Satisfied(bits, value[t]) then
              Walked(all, v, bits, n + 1, DropAt(waiting, i), value[t := Delivered(bits)], i,
                     if ClearsOnExit(value[t]) then Or(clear, WaitsFor(value[t])) else clear)
            else Walked(all, v, bits, n + 1, waiting, value, i + 1, clear)
  {
    hide Delivered, Satisfied, ClearsOnExit, WaitsFor, Or, Remaining, Cleared, Deliver, Distinct, DropAt;
    WalkDrop(Remaining(all[..n], v, bits), all, n);
    WalkRemaining(all, v, bits, n);
    WalkDeliver(all, v, bits, n);
  }

  lemma WalkedEnd(all: seq<Tid>, v: map<Tid, Bits>, bits: Bits, n: nat, waiting: seq<Tid>, value: map<Tid, Bits>,
                  i: nat, clear: Bits)
    requires Walked(all, v, bits, n, waiting, value, i, clear) && i >= |waiting|
    ensures waiting == Remaining(all, v, bits) && value == Deliver(all, v, bits) && clear == Cleared(all, v, bits)
  {
    assert all[..n] == all;
  }

  class EventGroup {
    var bits: Bits                // uxEventBits
    var waiting: seq<Tid>         // xTasksWaitingForBits
    var value: map<Tid, Bits>     // xItemValue of each task's event item

    ghost function State(): Group
      reads this
    {
      Group(bits, waiting, value)
    }

    ghost predicate Valid()
      reads this
    {
      Quiescent(State())
    }

    // The walk of xEventGroupSetBits over the waiting list, which takes tasks off it
    method WakeSatisfied() returns (clear: Bits)
      requires Distinct(waiting) && forall t :: t in waiting ==> t in value
      modifies `waiting, `value
      ensures waiting == Remaining(old(waiting), old(value), bits) && value == Deliver(old(waiting), old(value), bits)
      ensures clear == Cleared(old(waiting), old(value), bits)
    {
      hide Or, Delivered, Satisfied, ClearsOnExit, WaitsFor, Remaining, Cleared, Deliver, DropAt, Walked;
      WalkedStart(waiting, value, bits);
      ghost var all, v, n := waiting, value, 0;
      var i := 0;
      clear := 0;
      while i < |waiting|
        invariant n <= |all| && Walked(all, v, bits, n, waiting, value, i, clear)
        decreases |all| - n
      {
        WalkedStep(all, v, bits, n, waiting, value, i, clear);
        var t := waiting[i];
        if Satisfied(bits, value[t]) {
          if ClearsOnExit(value[t]) {
            clear := Or(clear, WaitsFor(value[t]));
          }
          value := value[t := Delivered(bits)];
          waiting := DropAt(waiting, i);
        } else {
          i := i + 1;
        }
        n := n + 1;
      }
      WalkedEnd(all, v, bits, n, waiting, value, i, clear);
    }

    // xEventGroupSetBits; what it returns are the bits when it runs again, once other
    // tasks may have run
    method SetBits(set0: Bits)
      requires Valid() && !HasAny(set0, CONTROL)
      modifies this
      ensures Valid() && State() == SetOn(old(State()), set0)
    {
      hide HasAny, HasAll, AndNot, Or, Quiescent, Remaining, Cleared, Deliver, Distinct;
      SetKeepsQuiescent(State(), set0);
      QuiescentGives(State());
      bits := Or(bits, set0);
      var clear := WakeSatisfied();
      bits := AndNot(bits, clear);
    }

    // xEventGroupWaitBits, up to the point where it returns or blocks
    method WaitBits(t: Tid, waitFor: Bits, clearOnExit: bool, waitForAll: bool, mayBlock: bool)
      returns (outcome: Outcome)
      requires Valid() && t !in waiting && !HasAny(waitFor, CONTROL)
      modifies this
      ensures Valid() && Result(State(), outcome) == WaitOn(old(State()), t, waitFor, clearOnExit, waitForAll, mayBlock)
    {
      hide HasAny, HasAll, AndNot, Quiescent, Coded;
      WaitKeepsQuiescent(State(), t, waitFor, clearOnExit, waitForAll, mayBlock);
      if Met(bits, waitFor, waitForAll) {
        outcome := Returned(bits);
        if clearOnExit {
          bits := AndNot(bits, waitFor);
        }
      } else if !mayBlock {
        outcome := Returned(bits);
      } else {
        PlaceOnUnorderedEventList(t, Coded(waitFor, clearOnExit, waitForAll));
        outcome := Blocked;
      }
    }

    // vTaskPlaceOnUnorderedEventList
    method PlaceOnUnorderedEventList(t: Tid, itemValue: Bits)
      modifies `waiting, `value
      ensures State() == BlockOn(old(State()), t, itemValue)
    {
      value := value[t := itemValue];
      waiting := waiting + [t];
    }

    // xEventGroupSync, up to the point where it returns or blocks
    method Sync(t: Tid, set0: Bits, waitFor: Bits, mayBlock: bool) returns (outcome: Outcome)
      requires Valid() && t !in waiting && !HasAny(set0, CONTROL) && !HasAny(waitFor, CONTROL)
      modifies this
      ensures Valid() && Result(State(), outcome) == SyncOn(old(State()), t, set0, waitFor, mayBlock)
    {
      hide HasAny, HasAll, AndNot, Or, Quiescent, Coded, SetOn;
      SyncKeepsQuiescent(State(), t, set0, waitFor, mayBlock);
      var original := bits;
      SetBits(set0);
      if HasAll(Or(original, set0), waitFor) {
        bits := AndNot(bits, waitFor);
        outcome := Returned(Or(original, set0));
      } else if mayBlock {
        PlaceOnUnorderedEventList(t, Coded(waitFor, true, true));
        outcome := Blocked;
      } else {
        outcome := Returned(bits);
      }
    }

    // A blocked task's time runs out: the tick takes its event item off the list.
    method TimeOut(t: Tid)
      requires Valid() && t in waiting
      modifies `waiting
      ensures Valid() && State() == Apply(old(State()), Op.TimeOut(t))
      ensures forall u :: u in waiting <==> u in old(waiting) && u != t
    {
      hide Quiescent;
      TimeOutKeepsQuiescent(State(), t);
      waiting := DropAt(waiting, IndexOf(waiting, t));
    }

    // The rest of xEventGroupWaitBits and xEventGroupSync, when a task that blocked
    // runs again
    method FinishWait(t: Tid, waitFor: Bits, clearOnExit: bool, waitForAll: bool, normal: Bits) returns (r: Bits)
      requires Valid() && t !in waiting && t in value && !HasAny(waitFor, CONTROL)
      modifies this
      ensures Valid()
      ensures Result(State(), Returned(r)) == FinishOn(old(State()), t, waitFor, clearOnExit, waitForAll, normal)
    {
      hide HasAny, HasAll, AndNot, Quiescent;
      FinishKeepsQuiescent(State(), t, waitFor, clearOnExit, waitForAll, normal);
      r := value[t];
      value := value[t := normal];
      if !HasAny(r, UNBLOCKED_BY_SET) {
        r := bits;
        if Met(r, waitFor, waitForAll) {
          if clearOnExit {
            bits := AndNot(bits, waitFor);
          }
        }
      }
      r := AndNot(r, CONTROL);
    }

    // xEventGroupClearBits
    method ClearBits(clear: Bits) returns (r: Bits)
      requires Valid() && !HasAny(clear, CONTROL)
      modifies `bits
      ensures Valid() && bits == AndNot(old(bits), clear) && r == old(bits)
    {
      hide HasAny, AndNot, Quiescent;
      ClearKeepsQuiescent(State(), clear);
      r := bits;
      bits := AndNot(bits, clear);
    }

    // xEventGroupCreate
    constructor ()
      ensures Valid() && State() == Group(0, [], map[])
    {
      bits, waiting, value := 0, [], map[];
      new;
      NothingHas(CONTROL);
    }
  }
}
