/** How the kernel's own steps treat the tasks of one priority: what a context
    switch chooses, and how the results on sharing the processor carry over to runs
    of the kernel.

    Every step does to the ready list of a priority what some tasks leaving it, some
    joining it, and at a context switch of that priority one selection, would do. */
module KernelFairness {
  import opened Identifiers
  import opened Ticks
  import opened CursorLists
  import opened Kernels
  import opened KernelInvariants
  import KernelRuns
  import RoundRobin

  type Op = RoundRobin.Op<Tid>

  function ReadyList(k: Kernel, p: nat): TaskList {
    Get(k.tasks.lists, Ready(p))
  }

  lemma OnceEach(s: Tasks, id: ListId)
    requires Partition(s.lists, s.stateIn)
    ensures Distinct(Get(s.lists, id).items)
  {
    hide Get;
    assert forall t :: multiset(Get(s.lists, id).items)[t] <= 1;
    KernelRuns.OnceEach(Get(s.lists, id).items);
  }

  // ---------------------------------------------------------------------
  // What a context switch chooses
  // ---------------------------------------------------------------------

  // The task selected is the one whose turn it is: it had one selection to wait.
  // Every other task of its priority comes one nearer, and no other list changes.
  lemma SwitchTakesTurns(k: Kernel, p: nat, t: Tid)
    requires Inv(k) && Enabled(k, SwitchContext(p)) && t in ReadyList(k, p).items
    ensures var k1 := Do(k, SwitchContext(p));
            && (k1.current == t <==> RoundRobin.Wait(ReadyList(k, p), t) == 1)
            && ReadyList(k1, p).items == ReadyList(k, p).items
            && (k1.current != t ==> RoundRobin.Wait(ReadyList(k1, p), t) == RoundRobin.Wait(ReadyList(k, p), t) - 1)
            && (forall id :: id != Ready(p) ==> Get(k1.tasks.lists, id) == Get(k.tasks.lists, id))
  {
    var l := ReadyList(k, p);
    OnceEach(k.tasks, Ready(p));
    RoundRobin.SelectStep(l, t);
    assert ReadyList(Do(k, SwitchContext(p)), p) == Next(l);
    assert Do(k, SwitchContext(p)).current == Selected(Next(l));
  }

  // A task that is created, or whose priority is set while it is ready, goes to the
  // list of that priority, where it is served after every other but the one under the
  // walking pointer.
  lemma JoinsLast(k: Kernel, step: Step, u: Tid)
    requires Inv(k) && Enabled(k, step)
    requires step.CreateTask? || (step.ChangePriority? && k.tasks.stateIn[step.t].Ready?)
    ensures var l, t := ReadyList(Do(k, step), step.p), step.t;
            && At(Do(k, step).tasks.priority, t) == step.p && t in l.items
            && (u in l.items && u != t && !RoundRobin.AtCursor(l, u) ==> RoundRobin.Wait(l, u) < RoundRobin.Wait(l, t))
  {
    var s := Before(k, step);
    BeforeIs(k, step);
    StepKeepsInv(k, step);
    var l0 := Get(s.lists, Ready(step.p));
    OnceEach(s, Ready(step.p));
    InList(s.lists, s.stateIn, Ready(step.p), step.t);
    hide Inv, Do, Enabled, Before, Partition, Distinct, RoundRobin.Wait, RoundRobin.AtCursor, InsertEnd, Get;
    RoundRobin.JoinedItems(l0, step.t);
    if u in l0.items {
      RoundRobin.JoinStep(l0, step.t, u);
      if !RoundRobin.AtCursor(l0, u) {
        RoundRobin.NewcomerIsLast(l0, step.t, u);
      }
    }
  }

  // Just before the task is put on its ready list
  ghost function Before(k: Kernel, step: Step): Tasks
    requires Enabled(k, step) && (step.CreateTask? || step.ChangePriority?)
  {
    match step
    case CreateTask(t, p) =>
      k.tasks.(priority := k.tasks.priority[t := p], eventValue := k.tasks.eventValue[t := MAX_PRIORITIES - p])
    case ChangePriority(t, p, value) =>
      Unlink(k.tasks.(priority := k.tasks.priority[t := p], eventValue := k.tasks.eventValue[t := value]), t)
  }

  lemma BeforeIs(k: Kernel, step: Step)
    requires Inv(k) && Enabled(k, step)
    requires step.CreateTask? || (step.ChangePriority? && k.tasks.stateIn[step.t].Ready?)
    ensures var s := Before(k, step);
            && Partition(s.lists, s.stateIn) && step.t !in s.stateIn
            && ReadyList(Do(k, step), step.p) == InsertEnd(Get(s.lists, Ready(step.p)), step.t)
            && At(Do(k, step).tasks.priority, step.t) == step.p
  {
    hide Partition, Prioritised, WaitersBlocked, ByDue, Ahead, NothingPending, Counted, InsertEnd, Drop;
    if step.ChangePriority? {
      var s0 := k.tasks.(priority := k.tasks.priority[step.t := step.p],
                         eventValue := k.tasks.eventValue[step.t := step.value]);
      UnlinkPartition(s0, step.t);
    }
  }

  // ---------------------------------------------------------------------
  // What a step does to a ready list
  // ---------------------------------------------------------------------

  // The operations turn one list into the other and pass t over.
  ghost predicate Follows(l: TaskList, ops: seq<Op>, l': TaskList, t: Tid) {
    RoundRobin.Run(l, ops) && RoundRobin.Final(l, ops) == l' && RoundRobin.PassedOver(l, ops, t)
  }

  lemma FollowsNothing(l: TaskList, t: Tid)
    requires t in l.items
    ensures Follows(l, [], l, t) && RoundRobin.Selections<Tid>([]) == 0
  {
  }

  lemma {:induction false} FollowsThen(l: TaskList, a: seq<Op>, l1: TaskList, b: seq<Op>, l2: TaskList, t: Tid)
    requires Follows(l, a, l1, t) && Follows(l1, b, l2, t)
    ensures Follows(l, a + b, l2, t)
    ensures RoundRobin.Selections(a + b) == RoundRobin.Selections(a) + RoundRobin.Selections(b)
    decreases |a|
  {
    hide RoundRobin.Apply, RoundRobin.AtCursor, RoundRobin.Enabled;
    if a == [] {
      assert a + b == b;
    } else {
      assert (a + b)[1..] == a[1..] + b;
      FollowsThen(RoundRobin.Apply(l, a[0]), a[1..], l1, b, l2, t);
    }
  }

  lemma FollowsOne(l: TaskList, op: Op, t: Tid)
    requires RoundRobin.Enabled(l, op) && t in l.items && t in RoundRobin.Apply(l, op).items
    requires op != RoundRobin.Leave(t) && (op.Select? ==> !RoundRobin.AtCursor(Next(l), t))
    ensures Follows(l, [op], RoundRobin.Apply(l, op), t)
    ensures RoundRobin.Selections([op]) == if op.Select? then 1 else 0
  {
    assert [op][1..] == [];
    assert RoundRobin.PassedOver(RoundRobin.Apply(l, op), [], t);
  }

  lemma LeaveFollows(l: TaskList, u: Tid, t: Tid)
    requires Distinct(l.items) && u in l.items && t in l.items && u != t
    ensures Follows(l, [RoundRobin.Leave(u)], Remove(l, u), t) && RoundRobin.Selections([RoundRobin.Leave(u)]) == 0
  {
    DropAtDistinct(l.items, IndexOf(l.items, u));
    FollowsOne(l, RoundRobin.Leave(u), t);
  }

  lemma JoinFollows(l: TaskList, u: Tid, t: Tid)
    requires Distinct(l.items) && u !in l.items && t in l.items
    ensures Follows(l, [RoundRobin.Join(u)], InsertEnd(l, u), t) && RoundRobin.Selections([RoundRobin.Join(u)]) == 0
  {
    RoundRobin.JoinedItems(l, u);
    FollowsOne(l, RoundRobin.Join(u), t);
  }

  ghost predicate IsReady(s: Tasks, p: nat, t: Tid) {
    Partition(s.lists, s.stateIn) && t in Get(s.lists, Ready(p)).items
  }

  // From s to s' the ready list changes as if by leaving and joining alone.
  ghost predicate Quietly(s: Tasks, ops: seq<Op>, s': Tasks, p: nat, t: Tid) {
    Follows(Get(s.lists, Ready(p)), ops, Get(s'.lists, Ready(p)), t) && RoundRobin.Selections(ops) == 0
  }

  lemma QuietlySame(s: Tasks, s': Tasks, p: nat, t: Tid)
    requires t in Get(s.lists, Ready(p)).items && Get(s'.lists, Ready(p)) == Get(s.lists, Ready(p))
    ensures Quietly(s, [], s', p, t)
  {
    FollowsNothing(Get(s.lists, Ready(p)), t);
  }

  lemma QuietlyThen(s: Tasks, a: seq<Op>, s1: Tasks, b: seq<Op>, s2: Tasks, p: nat, t: Tid)
    requires Quietly(s, a, s1, p, t) && Quietly(s1, b, s2, p, t)
    ensures Quietly(s, a + b, s2, p, t)
  {
    FollowsThen(Get(s.lists, Ready(p)), a, Get(s1.lists, Ready(p)), b, Get(s2.lists, Ready(p)), t);
  }

  lemma UnlinkQuietly(s: Tasks, u: Tid, p: nat, t: Tid) returns (ops: seq<Op>)
    requires IsReady(s, p, t) && u != t
    ensures Quietly(s, ops, Unlink(s, u), p, t)
  {
    hide Follows;
    var l := Get(s.lists, Ready(p));
    OnceEach(s, Ready(p));
    InList(s.lists, s.stateIn, Ready(p), u);
    hide Partition, Distinct;
    if IsIn(s, u, Ready(p)) {
      ops := [RoundRobin.Leave(u)];
      LeaveFollows(l, u, t);
    } else {
      ops := [];
      FollowsNothing(l, t);
    }
  }

  lemma LinkEndQuietly(s: Tasks, u: Tid, id: ListId, p: nat, t: Tid) returns (ops: seq<Op>)
    requires IsReady(s, p, t) && u !in s.stateIn
    ensures Quietly(s, ops, LinkEnd(s, u, id), p, t)
  {
    hide Follows;
    var l := Get(s.lists, Ready(p));
    OnceEach(s, Ready(p));
    InList(s.lists, s.stateIn, Ready(p), u);
    hide Partition, Distinct, InsertEnd;
    if id == Ready(p) {
      ops := [RoundRobin.Join(u)];
      JoinFollows(l, u, t);
    } else {
      ops := [];
      FollowsNothing(l, t);
    }
  }

  lemma QuietlyStays(s: Tasks, ops: seq<Op>, s': Tasks, p: nat, t: Tid)
    requires Quietly(s, ops, s', p, t)
    ensures t in Get(s'.lists, Ready(p)).items
  {
    StaysOn(Get(s.lists, Ready(p)), ops, t);
  }

  lemma {:induction false} StaysOn(l: TaskList, ops: seq<Op>, t: Tid)
    requires RoundRobin.Run(l, ops) && RoundRobin.PassedOver(l, ops, t)
    ensures t in RoundRobin.Final(l, ops).items
    decreases |ops|
  {
    hide RoundRobin.Apply, RoundRobin.AtCursor, RoundRobin.Enabled;
    if ops != [] {
      StaysOn(RoundRobin.Apply(l, ops[0]), ops[1..], t);
    }
  }

  lemma MakeReadyQuietly(s: Tasks, u: Tid, p: nat, t: Tid) returns (ops: seq<Op>)
    requires IsReady(s, p, t) && u != t && u in s.stateIn
    ensures Quietly(s, ops, MakeReady(s, u), p, t)
  {
    hide Quietly, Unlink, LinkEnd, Partition;
    var s1 := Unlink(s, u);
    var a := UnlinkQuietly(s, u, p, t);
    UnlinkPartition(s, u);
    UnlinkMoves(s, u);
    UnlinkKeepsPriorities(s, u);
    QuietlyStays(s, a, s1, p, t);
    var b := LinkEndQuietly(s1, u, Ready(At(s.priority, u)), p, t);
    QuietlyThen(s, a, s1, b, MakeReady(s, u), p, t);
    ops := a + b;
  }

  lemma UnlinkKeepsPriorities(s: Tasks, u: Tid)
    ensures Unlink(s, u).priority == s.priority
  {
  }

  // Other tasks, none of them t, are made ready one after another.
  lemma {:induction false} ReadyAllQuietly(s: Tasks, ts: seq<Tid>, p: nat, t: Tid) returns (ops: seq<Op>)
    requires Core(s) && t in Get(s.lists, Ready(p)).items && t !in ts && forall u :: u in ts ==> u in s.stateIn
    ensures Quietly(s, ops, ReadyAll(s, ts), p, t)
    decreases |ts|
  {
    hide Quietly, MakeReady, UnlinkEvent, Prioritised, WaitersBlocked, ByDue, Partition;
    if ts == [] {
      ops := [];
      QuietlySame(s, s, p, t);
    } else {
      var s0 := UnlinkEvent(s, ts[0]);
      var s1 := MakeReady(s0, ts[0]);
      UnlinkEventKeeps(s, ts[0]);
      QuietlySame(s, s0, p, t);
      var a := MakeReadyQuietly(s0, ts[0], p, t);
      OneReady(s, ts[0]);
      QuietlyThen(s, [], s0, a, s1, p, t);
      QuietlyStays(s, [] + a, s1, p, t);
      var b := ReadyAllQuietly(s1, ts[1..], p, t);
      QuietlyThen(s, [] + a, s1, b, ReadyAll(s, ts), p, t);
      ops := [] + a + b;
    }
  }

  // ---- ticks ----

  lemma TickQuietly(k: Kernel, p: nat, t: Tid) returns (ops: seq<Op>)
    requires Core(k.tasks) && t in ReadyList(k, p).items
    ensures Quietly(k.tasks, ops, OneTick(k).tasks, p, t)
  {
    hide Core, Quietly, Expired, ReadyAll;
    ExpiredAreOthers(k.tasks, k.now + 1, p, t);
    ops := ReadyAllQuietly(k.tasks, Expired(k.tasks, k.now + 1), p, t);
  }

  lemma ExpiredAreOthers(s: Tasks, moment: nat, p: nat, t: Tid)
    requires Core(s) && t in Get(s.lists, Ready(p)).items
    ensures forall u :: u in Expired(s, moment) ==> u in s.stateIn && u != t
  {
    InList(s.lists, s.stateIn, Ready(p), t);
    hide Expired;
    forall u | u in Expired(s, moment)
      ensures u in s.stateIn && u != t
    {
      ExpiredExactly(s, moment, u);
    }
  }

  lemma {:induction false} TicksQuietly(k: Kernel, n: nat, p: nat, t: Tid) returns (ops: seq<Op>)
    requires Core(k.tasks) && Ahead(k.tasks.due, k.tasks.stateIn, k.now) && t in ReadyList(k, p).items
    ensures Quietly(k.tasks, ops, TickTimes(k, n).tasks, p, t)
    decreases n
  {
    hide Core, Ahead, Quietly, OneTick, Ticked;
    if n == 0 {
      ops := [];
      QuietlySame(k.tasks, k.tasks, p, t);
    } else {
      var a := TickQuietly(k, p, t);
      OneTickExact(k);
      QuietlyStays(k.tasks, a, OneTick(k).tasks, p, t);
      var b := TicksQuietly(OneTick(k), n - 1, p, t);
      QuietlyThen(k.tasks, a, OneTick(k).tasks, b, TickTimes(k, n).tasks, p, t);
      ops := a + b;
    }
  }

  lemma PendingQuietly(k: Kernel, p: nat, t: Tid) returns (ops: seq<Op>)
    requires Core(k.tasks) && t in ReadyList(k, p).items
    ensures Quietly(k.tasks, ops, ReadyPending(k).tasks, p, t)
  {
    var s, ts := k.tasks, Get(k.tasks.events, PendingReady).items;
    InList(s.lists, s.stateIn, Ready(p), t);
    PendingAreKnown(s);
    assert t !in ts;
    hide Core, Quietly, ReadyAll;
    ops := ReadyAllQuietly(s, ts, p, t);
  }

  lemma ResumeQuietly(k: Kernel, p: nat, t: Tid) returns (ops: seq<Op>)
    requires Core(k.tasks) && Ahead(k.tasks.due, k.tasks.stateIn, k.now) && k.depth > 0 && t in ReadyList(k, p).items
    ensures Quietly(k.tasks, ops, ResumeAll(k).tasks, p, t)
  {
    hide Core, Ahead, Quietly, ReadyPending, TickTimes;
    if k.depth > 1 {
      ops := [];
      QuietlySame(k.tasks, k.tasks, p, t);
    } else {
      var k1 := k.(depth := 0);
      var a := PendingQuietly(k1, p, t);
      var k2 := ReadyPending(k1);
      ReadyPendingExact(k1);
      QuietlyStays(k.tasks, a, k2.tasks, p, t);
      var b := TicksQuietly(k2, k.pended, p, t);
      QuietlyThen(k.tasks, a, k2.tasks, b, TickTimes(k2, k.pended).tasks, p, t);
      ops := a + b;
    }
  }

  // ---- the other steps ----

  // The steps that take t off its ready list, or put it at the end of one again
  predicate Disturbs(k: Kernel, step: Step, t: Tid) {
    match step
    case DelayCurrent(_, _) => k.current == t
    case PlaceOnEventList(_, _) => k.current == t
    case PlaceOnUnorderedEventList(_, _, _) => k.current == t
    case SuspendTask(u) => u == t
    case DeleteTask(u) => u == t
    case ChangePriority(u, _, _) => u == t
    case _ => false
  }

  lemma DelayQuietly(s: Tasks, u: Tid, now: nat, ticks: Tick, indefinitely: bool, p: nat, t: Tid) returns (ops: seq<Op>)
    requires IsReady(s, p, t) && u != t
    ensures Quietly(s, ops, Delay(s, u, now, ticks, indefinitely), p, t)
  {
    hide Quietly, Unlink, Partition, InsertEnd, InsertBefore, InsertPos, Column;
    var s1 := Unlink(s, u);
    var a := UnlinkQuietly(s, u, p, t);
    QuietlyStays(s, a, s1, p, t);
    QuietlySame(s1, Delay(s, u, now, ticks, indefinitely), p, t);
    QuietlyThen(s, a, s1, [], Delay(s, u, now, ticks, indefinitely), p, t);
    ops := a + [];
  }

  lemma BlockingQuietly(k: Kernel, step: Step, p: nat, t: Tid) returns (ops: seq<Op>)
    requires IsReady(k.tasks, p, t) && Enabled(k, step) && !Disturbs(k, step, t)
    requires step.DelayCurrent? || step.PlaceOnEventList? || step.PlaceOnUnorderedEventList?
    ensures Quietly(k.tasks, ops, Do(k, step).tasks, p, t)
  {
    hide Quietly, Delay, InsertEnd, InsertBefore, InsertPos, Column, OneTick, ResumeAll, WakeTask, Select, MakeReady,
         LinkEnd, Unlink, UnlinkEvent, Partition;
    var s := k.tasks;
    match step {
      case DelayCurrent(ticks, indefinitely) => ops := DelayQuietly(s, k.current, k.now, ticks, indefinitely, p, t);
      case PlaceOnEventList(e, ticks) =>
        var s1 := LinkEventByValue(s, k.current, e);
        QuietlySame(s, s1, p, t);
        ops := DelayQuietly(s1, k.current, k.now, ticks, true, p, t);
        QuietlyThen(s, [], s1, ops, Do(k, step).tasks, p, t);
        ops := [] + ops;
      case PlaceOnUnorderedEventList(e, value, ticks) =>
        var s1 := LinkEventEnd(SetEventValue(s, k.current, value), k.current, e);
        QuietlySame(s, s1, p, t);
        ops := DelayQuietly(s1, k.current, k.now, ticks, true, p, t);
        QuietlyThen(s, [], s1, ops, Do(k, step).tasks, p, t);
        ops := [] + ops;
    }
  }

  lemma UnlinkEventLists(s: Tasks, u: Tid)
    ensures UnlinkEvent(s, u).lists == s.lists && UnlinkEvent(s, u).stateIn == s.stateIn
    ensures UnlinkEvent(s, u).priority == s.priority
  {
  }

  // Making a task ready that waits for an event
  lemma WakingQuietly(s: Tasks, u: Tid, p: nat, t: Tid) returns (ops: seq<Op>)
    requires IsReady(s, p, t) && u != t && u in s.stateIn
    ensures Quietly(s, ops, MakeReady(UnlinkEvent(s, u), u), p, t)
  {
    hide Quietly, MakeReady, UnlinkEvent, Partition;
    UnlinkEventLists(s, u);
    QuietlySame(s, UnlinkEvent(s, u), p, t);
    ops := MakeReadyQuietly(UnlinkEvent(s, u), u, p, t);
    QuietlyThen(s, [], UnlinkEvent(s, u), ops, MakeReady(UnlinkEvent(s, u), u), p, t);
    ops := [] + ops;
  }

  lemma WaiterIsOther(s: Tasks, u: Tid, p: nat, t: Tid)
    requires Core(s) && u in s.eventIn && t in Get(s.lists, Ready(p)).items
    ensures u in s.stateIn && u != t
  {
    InList(s.lists, s.stateIn, Ready(p), t);
  }

  lemma WakeQuietly(k: Kernel, u: Tid, p: nat, t: Tid) returns (ops: seq<Op>)
    requires Core(k.tasks) && u in k.tasks.eventIn && t in ReadyList(k, p).items
    ensures Quietly(k.tasks, ops, WakeTask(k, u).tasks, p, t)
  {
    WaiterIsOther(k.tasks, u, p, t);
    hide Quietly, MakeReady, UnlinkEvent, Partition, Prioritised, WaitersBlocked, ByDue;
    if k.depth == 0 {
      ops := WakingQuietly(k.tasks, u, p, t);
    } else {
      UnlinkEventLists(k.tasks, u);
      ops := [];
      QuietlySame(k.tasks, WakeTask(k, u).tasks, p, t);
    }
  }

  lemma UnorderedQuietly(k: Kernel, u: Tid, value: nat, p: nat, t: Tid) returns (ops: seq<Op>)
    requires Core(k.tasks) && Enabled(k, RemoveFromUnorderedEventList(u, value)) && t in ReadyList(k, p).items
    ensures Quietly(k.tasks, ops, Do(k, RemoveFromUnorderedEventList(u, value)).tasks, p, t)
  {
    WaiterIsOther(k.tasks, u, p, t);
    hide Quietly, MakeReady, UnlinkEvent, Partition, Prioritised, WaitersBlocked, ByDue;
    var s1 := SetEventValue(k.tasks, u, value);
    QuietlySame(k.tasks, s1, p, t);
    ops := WakingQuietly(s1, u, p, t);
    QuietlyThen(k.tasks, [], s1, ops, MakeReady(UnlinkEvent(s1, u), u), p, t);
    ops := [] + ops;
  }

  lemma TakeOffQuietly(s: Tasks, u: Tid, p: nat, t: Tid) returns (ops: seq<Op>)
    requires IsReady(s, p, t) && u != t
    ensures Quietly(s, ops, UnlinkEvent(Unlink(s, u), u), p, t)
  {
    hide Quietly, Unlink, UnlinkEvent, Partition;
    ops := UnlinkQuietly(s, u, p, t);
    QuietlyStays(s, ops, Unlink(s, u), p, t);
    UnlinkEventLists(Unlink(s, u), u);
    QuietlySame(Unlink(s, u), UnlinkEvent(Unlink(s, u), u), p, t);
    QuietlyThen(s, ops, Unlink(s, u), [], UnlinkEvent(Unlink(s, u), u), p, t);
    ops := ops + [];
  }

  // Suspending or deleting another task
  lemma StoppingQuietly(k: Kernel, step: Step, p: nat, t: Tid) returns (ops: seq<Op>)
    requires IsReady(k.tasks, p, t) && Enabled(k, step) && !Disturbs(k, step, t)
    requires step.SuspendTask? || step.DeleteTask?
    ensures Quietly(k.tasks, ops, Do(k, step).tasks, p, t)
  {
    hide Quietly, Unlink, UnlinkEvent, Partition, InsertEnd, OneTick, ResumeAll, WakeTask, Select, MakeReady, Delay;
    var s1 := UnlinkEvent(Unlink(k.tasks, step.t), step.t);
    ops := TakeOffQuietly(k.tasks, step.t, p, t);
    QuietlyStays(k.tasks, ops, s1, p, t);
    QuietlySame(s1, Do(k, step).tasks, p, t);
    QuietlyThen(k.tasks, ops, s1, [], Do(k, step).tasks, p, t);
    ops := ops + [];
  }

  lemma ReapingQuietly(k: Kernel, p: nat, t: Tid) returns (ops: seq<Op>)
    requires Core(k.tasks) && Enabled(k, ReapTerminated) && t in ReadyList(k, p).items
    ensures Quietly(k.tasks, ops, Do(k, ReapTerminated).tasks, p, t)
  {
    var s, u := k.tasks, Get(k.tasks.lists, Terminating).items[0];
    InList(s.lists, s.stateIn, Ready(p), t);
    InList(s.lists, s.stateIn, Terminating, u);
    hide Quietly, Unlink, Partition, Get, OneTick, ResumeAll, WakeTask, Select, MakeReady, Delay;
    ops := UnlinkQuietly(s, u, p, t);
    QuietlyStays(s, ops, Unlink(s, u), p, t);
    QuietlySame(Unlink(s, u), Forget(Unlink(s, u), u), p, t);
    QuietlyThen(s, ops, Unlink(s, u), [], Forget(Unlink(s, u), u), p, t);
    ops := ops + [];
  }

  lemma CreatingQuietly(k: Kernel, u: Tid, q: nat, p: nat, t: Tid) returns (ops: seq<Op>)
    requires IsReady(k.tasks, p, t) && Enabled(k, CreateTask(u, q))
    ensures Quietly(k.tasks, ops, Do(k, CreateTask(u, q)).tasks, p, t)
  {
    hide Quietly, LinkEnd, Partition, OneTick, ResumeAll, WakeTask, Select, MakeReady, Delay;
    var s1 := k.tasks.(priority := k.tasks.priority[u := q], eventValue := k.tasks.eventValue[u := MAX_PRIORITIES - q]);
    QuietlySame(k.tasks, s1, p, t);
    ops := LinkEndQuietly(s1, u, Ready(q), p, t);
    QuietlyThen(k.tasks, [], s1, ops, LinkEnd(s1, u, Ready(q)), p, t);
    ops := [] + ops;
  }

  lemma ChangingQuietly(k: Kernel, u: Tid, q: nat, value: nat, p: nat, t: Tid) returns (ops: seq<Op>)
    requires IsReady(k.tasks, p, t) && Enabled(k, ChangePriority(u, q, value)) && u != t
    ensures Quietly(k.tasks, ops, Do(k, ChangePriority(u, q, value)).tasks, p, t)
  {
    hide Quietly, MakeReady, Partition, OneTick, ResumeAll, WakeTask, Select, Delay;
    var s1 := k.tasks.(priority := k.tasks.priority[u := q], eventValue := k.tasks.eventValue[u := value]);
    QuietlySame(k.tasks, s1, p, t);
    ops := [];
    if s1.stateIn[u].Ready? {
      var a := MakeReadyQuietly(s1, u, p, t);
      QuietlyThen(k.tasks, [], s1, a, MakeReady(s1, u), p, t);
      ops := [] + a;
    }
  }

  lemma ResumingQuietly(k: Kernel, step: Step, p: nat, t: Tid) returns (ops: seq<Op>)
    requires IsReady(k.tasks, p, t) && Enabled(k, step) && (step.ResumeTask? || step.ResumeFromISR?)
    ensures Quietly(k.tasks, ops, Do(k, step).tasks, p, t)
  {
    InList(k.tasks.lists, k.tasks.stateIn, Ready(p), t);
    hide Quietly, MakeReady, Partition, OneTick, ResumeAll, WakeTask, Select, Delay, InsertEnd;
    if IsSuspended(k.tasks, step.t) && Do(k, step).tasks == MakeReady(k.tasks, step.t) {
      ops := MakeReadyQuietly(k.tasks, step.t, p, t);
    } else {
      ops := [];
      QuietlySame(k.tasks, Do(k, step).tasks, p, t);
    }
  }

  // Any step that leaves t alone, and is not a context switch of its priority
  lemma StepQuietly(k: Kernel, step: Step, p: nat, t: Tid) returns (ops: seq<Op>)
    requires Inv(k) && Enabled(k, step) && !Disturbs(k, step, t) && t in ReadyList(k, p).items
    requires step != SwitchContext(p)
    ensures Quietly(k.tasks, ops, Do(k, step).tasks, p, t)
  {
    hide Quietly, Partition, Prioritised, WaitersBlocked, ByDue, Ahead, NothingPending, Counted;
    match step
    case TickInterrupt =>
      if k.depth == 0 {
        ops := TickQuietly(k.(interrupts := k.interrupts + 1), p, t);
      } else {
        ops := [];
        QuietlySame(k.tasks, k.tasks, p, t);
      }
    case ResumeTheScheduler => ops := ResumeQuietly(k, p, t);
    case DelayCurrent(_, _) => ops := BlockingQuietly(k, step, p, t);
    case PlaceOnEventList(_, _) => ops := BlockingQuietly(k, step, p, t);
    case PlaceOnUnorderedEventList(_, _, _) => ops := BlockingQuietly(k, step, p, t);
    case RemoveFromEventList(e) =>
      HeadWaits(k.tasks, e);
      ops := WakeQuietly(k, Get(k.tasks.events, e).items[0], p, t);
    case RemoveFromUnorderedEventList(u, value) => ops := UnorderedQuietly(k, u, value, p, t);
    case SuspendTask(_) => ops := StoppingQuietly(k, step, p, t);
    case ResumeTask(_) => ops := ResumingQuietly(k, step, p, t);
    case ResumeFromISR(_) => ops := ResumingQuietly(k, step, p, t);
    case DeleteTask(_) => ops := StoppingQuietly(k, step, p, t);
    case ReapTerminated => ops := ReapingQuietly(k, p, t);
    case CreateTask(u, q) => ops := CreatingQuietly(k, u, q, p, t);
    case ChangePriority(u, q, value) => ops := ChangingQuietly(k, u, q, value, p, t);
    case _ =>
      ops := [];
      QuietlySame(k.tasks, Do(k, step).tasks, p, t);
  }

  // A context switch of its priority that chooses another task is one selection.
  lemma SwitchFollows(k: Kernel, p: nat, t: Tid)
    requires Inv(k) && Enabled(k, SwitchContext(p)) && t in ReadyList(k, p).items
    requires Do(k, SwitchContext(p)).current != t
    ensures Follows(ReadyList(k, p), [RoundRobin.Select], ReadyList(Do(k, SwitchContext(p)), p), t)
    ensures RoundRobin.Selections<Tid>([RoundRobin.Select]) == 1
  {
    var l := ReadyList(k, p);
    assert ReadyList(Do(k, SwitchContext(p)), p) == Next(l);
    assert Do(k, SwitchContext(p)).current == Selected(Next(l));
    FollowsOne(l, RoundRobin.Select, t);
  }

  // ---------------------------------------------------------------------
  // Whole runs
  // ---------------------------------------------------------------------

  ghost function Switches(steps: seq<Step>, p: nat): nat {
    if steps == [] then 0 else (if steps[0] == SwitchContext(p) then 1 else 0) + Switches(steps[1..], p)
  }

  // Nothing moves t, and no context switch chooses it.
  ghost predicate PassedOver(k: Kernel, steps: seq<Step>, t: Tid)
    requires KernelRuns.Run(k, steps)
    decreases |steps|
  {
    steps == [] || (!Disturbs(k, steps[0], t) && (steps[0].SwitchContext? ==> Do(k, steps[0]).current != t)
                    && PassedOver(Do(k, steps[0]), steps[1..], t))
  }

  // What a run that passes a ready task over does to its ready list
  lemma {:induction false} RunFollows(k: Kernel, steps: seq<Step>, p: nat, t: Tid) returns (ops: seq<Op>)
    requires Inv(k) && KernelRuns.Run(k, steps) && PassedOver(k, steps, t) && t in ReadyList(k, p).items
    ensures Follows(ReadyList(k, p), ops, ReadyList(KernelRuns.Final(k, steps), p), t)
    ensures RoundRobin.Selections(ops) == Switches(steps, p)
    decreases |steps|
  {
    if steps == [] {
      ops := [];
      FollowsNothing(ReadyList(k, p), t);
    } else {
      var k1, a := Do(k, steps[0]), [RoundRobin.Select];
      if steps[0] == SwitchContext(p) {
        SwitchFollows(k, p, t);
      } else {
        a := StepQuietly(k, steps[0], p, t);
      }
      hide Inv, Do, Enabled, Follows, Disturbs;
      StepKeepsInv(k, steps[0]);
      FollowsStays(ReadyList(k, p), a, ReadyList(k1, p), t);
      var b := RunFollows(k1, steps[1..], p, t);
      FollowsThen(ReadyList(k, p), a, ReadyList(k1, p), b, ReadyList(KernelRuns.Final(k, steps), p), t);
      ops := a + b;
    }
  }

  lemma FollowsStays(l: TaskList, ops: seq<Op>, l': TaskList, t: Tid)
    requires Follows(l, ops, l', t)
    ensures t in l'.items
  {
    StaysOn(l, ops, t);
  }

  // Waiting in the kernel, exactly accounted: over any run that passes a ready task
  // over, the context switches of its priority, the departures that brought it nearer
  // and the wait that remains add up to its initial wait and the arrivals that
  // overtook it.
  lemma KernelWaitingAccounted(k: Kernel, steps: seq<Step>, p: nat, t: Tid) returns (ops: seq<Op>)
    requires Inv(k) && KernelRuns.Run(k, steps) && PassedOver(k, steps, t) && t in ReadyList(k, p).items
    ensures RoundRobin.Run(ReadyList(k, p), ops)
    ensures var l, l' := ReadyList(k, p), ReadyList(KernelRuns.Final(k, steps), p);
            && RoundRobin.Final(l, ops) == l' && t in l'.items
            && Switches(steps, p) + RoundRobin.Clearings(l, ops, t) + RoundRobin.Wait(l', t)
               == RoundRobin.Wait(l, t) + RoundRobin.Overtakings(l, ops, t)
  {
    ops := RunFollows(k, steps, p, t);
    OnceEach(k.tasks, Ready(p));
    RoundRobin.WaitingAccounted(ReadyList(k, p), ops, t);
  }

  // So a ready task behind the walking pointer of its list is passed over by fewer
  // context switches of its priority than there are tasks on that list: unless it is
  // moved, one of so many chooses it.
  lemma ServedInTheKernel(k: Kernel, steps: seq<Step>, p: nat, t: Tid)
    requires Inv(k) && KernelRuns.Run(k, steps) && RoundRobin.Behind(ReadyList(k, p), t)
    requires Switches(steps, p) >= |ReadyList(k, p).items|
    ensures !PassedOver(k, steps, t)
  {
    if PassedOver(k, steps, t) {
      var ops := RunFollows(k, steps, p, t);
      OnceEach(k.tasks, Ready(p));
      RoundRobin.ServedWithinLength(ReadyList(k, p), ops, t);
    }
  }
}
