/** What the kernel invariant gives over every run of the kernel's steps: the
    task lists partition the tasks, delays are exact, no tick is lost, and there
    is always a task to run. */
module KernelRuns {
  import opened Identifiers
  import opened Ticks
  import opened CursorLists
  import opened Kernels
  import opened KernelInvariants

  // ---------------------------------------------------------------------
  // Runs
  // ---------------------------------------------------------------------

  ghost predicate Run(k: Kernel, steps: seq<Step>)
    decreases |steps|
  {
    steps == [] || (Enabled(k, steps[0]) && Run(Do(k, steps[0]), steps[1..]))
  }

  ghost function Final(k: Kernel, steps: seq<Step>): Kernel
    requires Run(k, steps)
    decreases |steps|
  {
    if steps == [] then k else Final(Do(k, steps[0]), steps[1..])
  }

  // The scheduler starts with the idle task alone on a ready list.
  function Start(idle: Tid): Kernel {
    Kernel(
      Tasks(map[Ready(0) := CList([idle], 0), Blocked := Empty()], map[idle := Ready(0)], map[], map[],
            map[idle := MAX_PRIORITIES], map[idle := 0], map[]),
      0, 0, 0, 0, 1, 0, idle, idle)
  }

  lemma StartInv(idle: Tid)
    ensures Inv(Start(idle)) && Start(idle).interrupts == 0
  {
    var s := Start(idle).tasks;
    assert multiset([idle]) == multiset{idle};
    assert s.stateIn.Keys == {idle};
  }

  lemma {:induction false} RunKeepsInv(k: Kernel, steps: seq<Step>)
    requires Inv(k) && Run(k, steps)
    ensures Inv(Final(k, steps))
    decreases |steps|
  {
    hide Inv;
    if steps != [] {
      StepKeepsInv(k, steps[0]);
      RunKeepsInv(Do(k, steps[0]), steps[1..]);
    }
  }

  // ---------------------------------------------------------------------
  // The lists partition the tasks
  // ---------------------------------------------------------------------

  const ALL_LISTS: seq<ListId> :=
    [Ready(0), Ready(1), Ready(2), Ready(3), Ready(4), Blocked, Suspended, Terminating]

  // A task is on the list its container names, once, and on no other.
  lemma OnOneList(s: Tasks, t: Tid, id: ListId)
    requires Core(s) && t in s.stateIn
    ensures t in Get(s.lists, id).items <==> s.stateIn[t] == id
    ensures Distinct(Get(s.lists, id).items)
    ensures s.stateIn[t] in ALL_LISTS
    ensures s.stateIn[t].Ready? ==> s.stateIn[t].priority == s.priority[t]
  {
    InList(s.lists, s.stateIn, id, t);
    OnceEach(Get(s.lists, id).items);
    var p := At(s.priority, t);
    assert p < MAX_PRIORITIES;
    assert ALL_LISTS[5] == Blocked && ALL_LISTS[6] == Suspended && ALL_LISTS[7] == Terminating;
    assert ALL_LISTS[p] == Ready(p);
  }

  lemma OnceEach(items: seq<Tid>)
    ensures (forall t :: multiset(items)[t] <= 1) ==> Distinct(items)
  {
    if i, j :| 0 <= i < j < |items| && items[i] == items[j] {
      assert items == items[..j] + [items[j]] + items[j + 1..];
      assert items[i] in items[..j];
      assert multiset(items)[items[j]] >= 2;
    }
  }

  lemma LengthIsCount(items: seq<Tid>, members: set<Tid>)
    requires Distinct(items) && forall t :: t in items <==> t in members
    ensures |items| == |members|
  {
    if items != [] {
      var last := items[|items| - 1];
      var rest := items[..|items| - 1];
      assert items == rest + [last];
      assert last !in rest;
      LengthIsCount(rest, members - {last});
    } else {
      assert members == {};
    }
  }

  ghost function TotalLength(s: Tasks, ids: seq<ListId>): nat {
    if ids == [] then 0 else |Get(s.lists, ids[0]).items| + TotalLength(s, ids[1..])
  }

  ghost function OnAny(s: Tasks, ids: seq<ListId>): set<Tid> {
    set t | t in s.stateIn && s.stateIn[t] in ids
  }

  lemma ListCount(s: Tasks, id: ListId)
    requires Core(s)
    ensures |Get(s.lists, id).items| == |On(s.stateIn, id)|
  {
    OnceEach(Get(s.lists, id).items);
    forall t
      ensures t in Get(s.lists, id).items <==> t in On(s.stateIn, id)
    {
      InList(s.lists, s.stateIn, id, t);
    }
    LengthIsCount(Get(s.lists, id).items, On(s.stateIn, id));
  }

  lemma OnAnySplit(s: Tasks, ids: seq<ListId>)
    requires ids != [] && Distinct(ids)
    ensures |OnAny(s, ids)| == |On(s.stateIn, ids[0])| + |OnAny(s, ids[1..])|
  {
    assert ids[0] !in ids[1..];
    assert OnAny(s, ids) == On(s.stateIn, ids[0]) + OnAny(s, ids[1..]);
    assert On(s.stateIn, ids[0]) !! OnAny(s, ids[1..]);
  }

  lemma {:induction false} TotalCounts(s: Tasks, ids: seq<ListId>)
    requires Core(s) && Distinct(ids)
    ensures TotalLength(s, ids) == |OnAny(s, ids)|
  {
    hide Core;
    if ids != [] {
      ListCount(s, ids[0]);
      TotalCounts(s, ids[1..]);
      OnAnySplit(s, ids);
    }
  }

  lemma AllListsDiffer()
    ensures Distinct(ALL_LISTS)
  {
  }

  // uxCurrentNumberOfTasks is the sum of the lengths of the task lists, and
  // uxDeletedTasksWaitingCleanUp the length of the termination list.
  lemma LengthsSumToTasks(k: Kernel)
    requires Inv(k)
    ensures k.numberOfTasks == TotalLength(k.tasks, ALL_LISTS)
    ensures k.waitingCleanUp == |Get(k.tasks.lists, Terminating).items|
  {
    var s := k.tasks;
    AllListsDiffer();
    hide Core, Distinct, Ahead, NothingPending;
    TotalCounts(s, ALL_LISTS);
    ListCount(s, Terminating);
    forall t | t in s.stateIn
      ensures s.stateIn[t] in ALL_LISTS
    {
      OnOneList(s, t, Blocked);
    }
    assert OnAny(s, ALL_LISTS) == s.stateIn.Keys;
    SizeOfKeys(s.stateIn);
  }

  // Each task is on the list its container names and on no other, a ready task
  // at its current priority, and no list has an item twice.
  ghost predicate Partitioned(s: Tasks) {
    && (forall t, id :: t in s.stateIn ==> (t in Get(s.lists, id).items <==> s.stateIn[t] == id))
    && (forall id :: Distinct(Get(s.lists, id).items))
    && (forall t :: t in s.stateIn ==> s.stateIn[t] in ALL_LISTS)
    && (forall t :: t in s.stateIn && s.stateIn[t].Ready? ==> s.stateIn[t] == Ready(At(s.priority, t)))
  }

  lemma CorePartitions(s: Tasks)
    requires Core(s)
    ensures Partitioned(s)
  {
    forall t, id | t in s.stateIn
      ensures t in Get(s.lists, id).items <==> s.stateIn[t] == id
    {
      OnOneList(s, t, id);
    }
    forall id
      ensures Distinct(Get(s.lists, id).items)
    {
      OnceEach(Get(s.lists, id).items);
    }
    forall t | t in s.stateIn
      ensures s.stateIn[t] in ALL_LISTS
    {
      OnOneList(s, t, Blocked);
    }
  }

  lemma NothingOnPending(s: Tasks)
    requires Core(s) && NothingPending(s.eventIn)
    ensures Get(s.events, PendingReady).items == []
  {
    if Get(s.events, PendingReady).items != [] {
      HeadWaits(s, PendingReady);
    }
  }

  lemma SomeTask(k: Kernel)
    requires Inv(k)
    ensures k.numberOfTasks > 0
  {
    assert k.idle in k.tasks.stateIn.Keys;
    SizeOfKeys(k.tasks.stateIn);
  }

  lemma CleanUpFinds(k: Kernel)
    requires Inv(k)
    ensures k.current == k.idle && k.waitingCleanUp > 0 ==> Enabled(k, ReapTerminated)
  {
    hide Orderly, Counted;
    LengthsSumToTasks(k);
  }

  // Over every run: the lists partition the tasks, uxCurrentNumberOfTasks is the
  // sum of their lengths and positive, uxDeletedTasksWaitingCleanUp is the length
  // of the termination list, so that the clean-up always finds a head while it is
  // not zero, and the pending list is empty unless the scheduler is suspended.
  lemma PartitionOverRuns(idle: Tid, steps: seq<Step>)
    requires Run(Start(idle), steps)
    ensures var k := Final(Start(idle), steps);
            && Partitioned(k.tasks)
            && k.numberOfTasks == TotalLength(k.tasks, ALL_LISTS) > 0
            && k.waitingCleanUp == |Get(k.tasks.lists, Terminating).items|
            && (k.current == k.idle && k.waitingCleanUp > 0 ==> Enabled(k, ReapTerminated))
            && (k.depth == 0 ==> Get(k.tasks.events, PendingReady).items == [])
  {
    StartInv(idle);
    RunKeepsInv(Start(idle), steps);
    var k := Final(Start(idle), steps);
    CleanUpFinds(k);
    hide Core, Partitioned, Start, NothingPending, Ahead, Counted, TotalLength, Run, Final, Enabled, Get;
    LengthsSumToTasks(k);
    SomeTask(k);
    CorePartitions(k.tasks);
    if k.depth == 0 {
      NothingOnPending(k.tasks);
    }
  }

  // ---------------------------------------------------------------------
  // Delays are exact
  // ---------------------------------------------------------------------

  // The steps that move a blocked task before it is due
  predicate Touches(k: Kernel, step: Step, t: Tid) {
    match step
    case RemoveFromEventList(e) => Get(k.tasks.events, e).items != [] && Get(k.tasks.events, e).items[0] == t
    case RemoveFromUnorderedEventList(u, _) => u == t
    case SuspendTask(u) => u == t
    case DeleteTask(u) => u == t
    case _ => false
  }

  ghost predicate Delayed(k: Kernel, t: Tid, moment: nat) {
    IsIn(k.tasks, t, Blocked) && At(k.tasks.due, t) == moment && !Waits(k.tasks, t, PendingReady)
  }

  // Ticks leave a delayed task delayed while its moment is still to come, and make
  // it ready at its priority when the moment has come.
  lemma UntouchedByTicks(k: Kernel, n: nat, k': Kernel, t: Tid, moment: nat)
    requires Ticked(k, n, k') && Delayed(k, t, moment)
    ensures if moment <= k'.now then IsIn(k'.tasks, t, Ready(At(k'.tasks.priority, t))) else Delayed(k', t, moment)
  {
    hide Core, Ahead;
  }

  lemma TickIs(k: Kernel)
    ensures Do(k, TickInterrupt)
         == if k.depth == 0 then OneTick(k.(interrupts := k.interrupts + 1))
            else k.(interrupts := k.interrupts + 1, pended := Add(k.pended, 1))
  {
  }

  lemma UntouchedByTick(k: Kernel, t: Tid, moment: nat)
    requires Inv(k) && Delayed(k, t, moment)
    ensures var k1 := Do(k, TickInterrupt);
            k.now <= k1.now &&
            if moment <= k1.now then IsIn(k1.tasks, t, Ready(At(k1.tasks.priority, t))) else Delayed(k1, t, moment)
  {
    var k0 := k.(interrupts := k.interrupts + 1);
    NotYetDue(k, t, moment);
    TickIs(k);
    hide Core, Ahead, Counted, NothingPending, OneTick, Ticked, Do, IsIn, At, Waits;
    OneTickExact(k0);
    UntouchedByTicks(k0, 1, OneTick(k0), t, moment);
  }

  lemma UntouchedByResume(k: Kernel, t: Tid, moment: nat)
    requires Inv(k) && Delayed(k, t, moment) && k.depth > 0
    ensures var k1 := ResumeAll(k);
            k.now <= k1.now &&
            if moment <= k1.now then IsIn(k1.tasks, t, Ready(At(k1.tasks.priority, t))) else Delayed(k1, t, moment)
  {
    if k.depth == 1 {
      ResumeAllExact(k);
      PendingAreKnown(k.tasks);
    }
  }

  lemma UntouchedByWake(k: Kernel, t: Tid, moment: nat, u: Tid)
    requires Inv(k) && Delayed(k, t, moment) && u in k.tasks.eventIn && u != t
    ensures Delayed(WakeTask(k, u), t, moment) && WakeTask(k, u).now == k.now
  {
    if k.depth == 0 {
      OneReady(k.tasks, u);
    } else {
      HoldPendingKeeps(k.tasks, u);
      UnlinkEventKeeps(k.tasks, u);
    }
  }

  // Nothing of any other task is moved.
  ghost predicate Leaves(s: Tasks, s': Tasks, u: Tid) {
    s'.stateIn - {u} == s.stateIn - {u} && s'.due - {u} == s.due - {u} && s'.eventIn - {u} == s.eventIn - {u}
  }

  // Moving another task's items
  lemma UntouchedByMove(k: Kernel, k': Kernel, u: Tid, t: Tid, moment: nat)
    requires Delayed(k, t, moment) && u != t && Leaves(k.tasks, k'.tasks, u)
    ensures Delayed(k', t, moment)
  {
    assert t in k'.tasks.stateIn - {u} && t in k.tasks.stateIn - {u};
    assert t in k'.tasks.due - {u} <==> t in k.tasks.due - {u};
    assert t in k'.tasks.eventIn - {u} <==> t in k.tasks.eventIn - {u};
  }

  lemma MovedIsOther(k: Kernel, step: Step, t: Tid, moment: nat)
    requires Delayed(k, t, moment) && Enabled(k, step) && !Touches(k, step, t)
    requires step.RemoveFromUnorderedEventList? || step.SuspendTask? || step.DeleteTask? || step.CreateTask?
    ensures step.t != t
  {
  }

  lemma UntouchedByBlocking(k: Kernel, step: Step, t: Tid, moment: nat)
    requires Delayed(k, t, moment) && Enabled(k, step)
    requires step.DelayCurrent? || step.PlaceOnEventList? || step.PlaceOnUnorderedEventList?
    ensures Delayed(Do(k, step), t, moment) && Do(k, step).now == k.now
  {
    hide Delayed, Do, Enabled;
    BlockingMoves(k, step);
    CurrentIsOther(k, t, moment);
    UntouchedByMove(k, Do(k, step), k.current, t, moment);
  }

  lemma CurrentIsOther(k: Kernel, t: Tid, moment: nat)
    requires CanBlock(k) && Delayed(k, t, moment)
    ensures k.current != t
  {
  }

  lemma UntouchedByReaping(k: Kernel, t: Tid, moment: nat)
    requires Inv(k) && Delayed(k, t, moment) && Enabled(k, ReapTerminated)
    ensures Delayed(Do(k, ReapTerminated), t, moment) && Do(k, ReapTerminated).now == k.now
  {
    hide Partition, Prioritised, WaitersBlocked, ByDue, Ahead, NothingPending;
    InList(k.tasks.lists, k.tasks.stateIn, Terminating, Get(k.tasks.lists, Terminating).items[0]);
  }

  lemma SuspendingLeaves(k: Kernel, t: Tid)
    requires Enabled(k, SuspendTask(t))
    ensures var k' := Do(k, SuspendTask(t)); Leaves(k.tasks, k'.tasks, t) && k'.now == k.now
  {
    hide Unlink, UnlinkEvent, LinkEnd, CanStop, OneTick, ResumeAll, WakeTask, Select, MakeReady, Delay;
    TakeOffMoves(k.tasks, t);
    LinkEndMoves(UnlinkEvent(Unlink(k.tasks, t), t), t, Suspended);
  }

  lemma DeletingLeaves(k: Kernel, t: Tid)
    requires Enabled(k, DeleteTask(t))
    ensures var k' := Do(k, DeleteTask(t)); Leaves(k.tasks, k'.tasks, t) && k'.now == k.now
  {
    DeletionMoves(k, t);
    hide Do, Enabled;
    assert (k.tasks.stateIn - {t}) - {t} == k.tasks.stateIn - {t} == k.tasks.stateIn[t := Terminating] - {t};
    assert (k.tasks.due - {t}) - {t} == k.tasks.due - {t};
    assert (k.tasks.eventIn - {t}) - {t} == k.tasks.eventIn - {t};
  }

  lemma WakingLeaves(k: Kernel, t: Tid, value: nat)
    requires Enabled(k, RemoveFromUnorderedEventList(t, value))
    ensures var k' := Do(k, RemoveFromUnorderedEventList(t, value)); Leaves(k.tasks, k'.tasks, t) && k'.now == k.now
  {
    hide UnlinkEvent, MakeReady, OneTick, ResumeAll, WakeTask, Select, Delay;
    var s := SetEventValue(k.tasks, t, value);
    UnlinkEventMoves(s, t);
    MakeReadyMoves(UnlinkEvent(s, t), t);
  }

  lemma CreatingLeaves(k: Kernel, t: Tid, p: nat)
    requires Enabled(k, CreateTask(t, p))
    ensures var k' := Do(k, CreateTask(t, p)); Leaves(k.tasks, k'.tasks, t) && k'.now == k.now
  {
    hide LinkEnd, OneTick, ResumeAll, WakeTask, Select, MakeReady, Delay;
    LinkEndMoves(k.tasks.(priority := k.tasks.priority[t := p],
                          eventValue := k.tasks.eventValue[t := MAX_PRIORITIES - p]), t, Ready(p));
  }

  lemma ResumingLeaves(k: Kernel, step: Step)
    requires Enabled(k, step) && (step.ResumeTask? || step.ResumeFromISR?)
    ensures Leaves(k.tasks, Do(k, step).tasks, step.t) && Do(k, step).now == k.now
    ensures IsIn(k.tasks, step.t, Blocked) ==> Do(k, step) == k
  {
    hide MakeReady, InsertEnd, Get, OneTick, ResumeAll, WakeTask, Select, Delay;
    MakeReadyMoves(k.tasks, step.t);
  }

  // A change of priority leaves a blocked task where it is.
  lemma ChangingLeaves(k: Kernel, t: Tid, p: nat, value: nat)
    requires Enabled(k, ChangePriority(t, p, value))
    ensures var k' := Do(k, ChangePriority(t, p, value));
            && Leaves(k.tasks, k'.tasks, t) && k'.now == k.now
            && (IsIn(k.tasks, t, Blocked) ==>
                  && k'.tasks.stateIn == k.tasks.stateIn && k'.tasks.due == k.tasks.due
                  && k'.tasks.eventIn == k.tasks.eventIn)
  {
    hide MakeReady, OneTick, ResumeAll, WakeTask, Select, Delay;
    MakeReadyMoves(k.tasks.(priority := k.tasks.priority[t := p], eventValue := k.tasks.eventValue[t := value]), t);
  }

  lemma UntouchedByMoving(k: Kernel, step: Step, t: Tid, moment: nat)
    requires Delayed(k, t, moment) && Enabled(k, step) && !Touches(k, step, t)
    requires step.RemoveFromUnorderedEventList? || step.SuspendTask? || step.DeleteTask? || step.CreateTask?
    ensures Delayed(Do(k, step), t, moment) && Do(k, step).now == k.now
  {
    MovedIsOther(k, step, t, moment);
    hide Delayed, Do, Enabled;
    match step {
      case RemoveFromUnorderedEventList(u, value) => WakingLeaves(k, u, value);
      case CreateTask(u, p) => CreatingLeaves(k, u, p);
      case SuspendTask(u) => SuspendingLeaves(k, u);
      case DeleteTask(u) => DeletingLeaves(k, u);
    }
    UntouchedByMove(k, Do(k, step), step.t, t, moment);
  }

  // A blocked task is not suspended, so resuming it does nothing; and setting its
  // priority leaves it where it is.
  lemma UntouchedByChange(k: Kernel, step: Step, t: Tid, moment: nat)
    requires Delayed(k, t, moment) && Enabled(k, step)
    requires step.ResumeTask? || step.ResumeFromISR? || step.ChangePriority?
    ensures Delayed(Do(k, step), t, moment) && Do(k, step).now == k.now
  {
    hide Do, Enabled;
    match step {
      case ChangePriority(u, p, value) => ChangingLeaves(k, u, p, value);
      case _ => ResumingLeaves(k, step);
    }
    if step.t != t {
      UntouchedByMove(k, Do(k, step), step.t, t, moment);
    }
  }

  // Any step that moves nothing of t but, possibly, another task's items
  lemma UntouchedByOther(k: Kernel, step: Step, t: Tid, moment: nat)
    requires Inv(k) && Delayed(k, t, moment) && Enabled(k, step) && !Touches(k, step, t)
    requires !step.TickInterrupt? && !step.ResumeTheScheduler? && !step.RemoveFromEventList?
    requires !step.DelayCurrent? && !step.PlaceOnEventList? && !step.PlaceOnUnorderedEventList?
    ensures Delayed(Do(k, step), t, moment) && Do(k, step).now == k.now
  {
    match step
    case ReapTerminated => UntouchedByReaping(k, t, moment);
    case ResumeTask(_) => UntouchedByChange(k, step, t, moment);
    case ResumeFromISR(_) => UntouchedByChange(k, step, t, moment);
    case ChangePriority(_, _, _) => UntouchedByChange(k, step, t, moment);
    case SuspendAll =>
    case ResetEventItemValue =>
    case SwitchContext(_) =>
    case _ => UntouchedByMoving(k, step, t, moment);
  }

  lemma UntouchedStep(k: Kernel, step: Step, t: Tid, moment: nat)
    requires Inv(k) && Delayed(k, t, moment) && Enabled(k, step) && !Touches(k, step, t)
    ensures k.now <= Do(k, step).now
    ensures if moment <= Do(k, step).now then IsIn(Do(k, step).tasks, t, Ready(At(Do(k, step).tasks.priority, t)))
            else Delayed(Do(k, step), t, moment)
  {
    hide Inv, Delayed, Touches;
    NotYetDue(k, t, moment);
    match step
    case TickInterrupt => UntouchedByTick(k, t, moment);
    case ResumeTheScheduler => UntouchedByResume(k, t, moment);
    case RemoveFromEventList(e) => UntouchedByRemoval(k, e, t, moment);
    case DelayCurrent(_, _) => UntouchedByBlocking(k, step, t, moment);
    case PlaceOnEventList(_, _) => UntouchedByBlocking(k, step, t, moment);
    case PlaceOnUnorderedEventList(_, _, _) => UntouchedByBlocking(k, step, t, moment);
    case _ => UntouchedByOther(k, step, t, moment);
  }

  lemma NotYetDue(k: Kernel, t: Tid, moment: nat)
    requires Inv(k) && Delayed(k, t, moment)
    ensures k.now < moment
  {
  }

  lemma UntouchedByRemoval(k: Kernel, e: EventId, t: Tid, moment: nat)
    requires Inv(k) && Delayed(k, t, moment)
    requires Enabled(k, RemoveFromEventList(e)) && !Touches(k, RemoveFromEventList(e), t)
    ensures Delayed(Do(k, RemoveFromEventList(e)), t, moment) && Do(k, RemoveFromEventList(e)).now == k.now
  {
    HeadWaits(k.tasks, e);
    UntouchedByWake(k, t, moment, Get(k.tasks.events, e).items[0]);
  }

  // ---- whole runs ----

  // The steps before the moment comes do not touch t.
  ghost predicate Untouched(k: Kernel, steps: seq<Step>, t: Tid, moment: nat)
    requires Run(k, steps)
    decreases |steps|
  {
    steps == [] || (k.now < moment ==> !Touches(k, steps[0], t) && Untouched(Do(k, steps[0]), steps[1..], t, moment))
  }

  lemma {:induction false} StillDelayed(k: Kernel, steps: seq<Step>, t: Tid, moment: nat)
    requires Inv(k) && Delayed(k, t, moment) && Run(k, steps) && Untouched(k, steps, t, moment)
    requires Final(k, steps).now < moment
    ensures Inv(Final(k, steps)) && Delayed(Final(k, steps), t, moment)
    decreases |steps|
  {
    hide Inv, Delayed, Touches;
    if steps != [] {
      var k1 := Do(k, steps[0]);
      NotYetDue(k, t, moment);
      StepKeepsInv(k, steps[0]);
      UntouchedStep(k, steps[0], t, moment);
      ClockMonotone(k1, steps[1..]);
      StillDelayed(k1, steps[1..], t, moment);
    }
  }

  lemma ClockStep(k: Kernel, step: Step)
    requires Inv(k) && Enabled(k, step)
    ensures k.now <= Do(k, step).now && (k.depth == 0 ==> Do(k, step).now <= k.now + 1)
  {
    if step == TickInterrupt {
    } else if step == ResumeTheScheduler && k.depth == 1 {
      ResumeAllExact(k);
    }
  }

  lemma {:induction false} ClockMonotone(k: Kernel, steps: seq<Step>)
    requires Inv(k) && Run(k, steps)
    ensures k.now <= Final(k, steps).now
    decreases |steps|
  {
    hide Inv;
    if steps != [] {
      ClockStep(k, steps[0]);
      StepKeepsInv(k, steps[0]);
      ClockMonotone(Do(k, steps[0]), steps[1..]);
    }
  }

  // A task that delays itself for d ticks at moment T, over any run that does not
  // touch it: it is blocked for as long as the clock is before T + d, and the
  // step that takes the clock to T + d or past it makes it ready.  Unless that
  // step ends a suspension, the clock is then at T + d exactly.
  lemma DelayIsExact(k: Kernel, d: Tick, indefinitely: bool, steps: seq<Step>, last: Step)
    requires Inv(k) && Enabled(k, DelayCurrent(d, indefinitely)) && !(indefinitely && d == MAX_DELAY)
    requires var k1 := Do(k, DelayCurrent(d, indefinitely));
             Run(k1, steps) && Untouched(k1, steps, k.current, k.now + d) && Final(k1, steps).now < k.now + d
             && Enabled(Final(k1, steps), last) && !Touches(Final(k1, steps), last, k.current)
    ensures var k2 := Final(Do(k, DelayCurrent(d, indefinitely)), steps);
            && IsIn(k2.tasks, k.current, Blocked)
            && (Do(k2, last).now < k.now + d ==> IsIn(Do(k2, last).tasks, k.current, Blocked))
            && (Do(k2, last).now >= k.now + d ==>
                  IsIn(Do(k2, last).tasks, k.current, Ready(At(Do(k2, last).tasks.priority, k.current))))
            && (Do(k2, last).now >= k.now + d && k2.depth == 0 ==> Do(k2, last).now == k.now + d)
  {
    hide Inv, Touches, Do, Enabled;
    var step := DelayCurrent(d, indefinitely);
    var k1 := Do(k, step);
    StepKeepsInv(k, step);
    DelayStarts(k, d, indefinitely);
    StillDelayed(k1, steps, k.current, k.now + d);
    UntouchedStep(Final(k1, steps), last, k.current, k.now + d);
    ClockStep(Final(k1, steps), last);
  }

  lemma DelayStarts(k: Kernel, d: Tick, indefinitely: bool)
    requires Inv(k) && Enabled(k, DelayCurrent(d, indefinitely)) && !(indefinitely && d == MAX_DELAY)
    ensures Delayed(Do(k, DelayCurrent(d, indefinitely)), k.current, k.now + d)
  {
  }

  // ---------------------------------------------------------------------
  // No tick is lost
  // ---------------------------------------------------------------------

  ghost function TickInterrupts(steps: seq<Step>): nat {
    if steps == [] then 0 else (if steps[0].TickInterrupt? then 1 else 0) + TickInterrupts(steps[1..])
  }

  lemma {:induction false} InterruptsCounted(k: Kernel, steps: seq<Step>)
    requires Inv(k) && Run(k, steps)
    ensures Final(k, steps).interrupts == k.interrupts + TickInterrupts(steps)
    decreases |steps|
  {
    hide Inv;
    if steps != [] {
      StepKeepsInv(k, steps[0]);
      InterruptStep(k, steps[0]);
      InterruptsCounted(Do(k, steps[0]), steps[1..]);
    }
  }

  lemma InterruptStep(k: Kernel, step: Step)
    requires Inv(k) && Enabled(k, step)
    ensures Do(k, step).interrupts == k.interrupts + (if step.TickInterrupt? then 1 else 0)
  {
    if step == ResumeTheScheduler && k.depth == 1 {
      ResumeAllExact(k);
    }
  }

  lemma TicksAccounted(k: Kernel)
    requires Inv(k)
    ensures Add(Low(k.now), k.pended) == Low(k.interrupts) && (k.depth == 0 ==> k.pended == 0)
  {
    hide Core, Ahead, Counted, NothingPending;
    AddFollowsClock(k.now, k.pended);
  }

  // xTickCount plus xPendedTicks is the number of tick interrupts, modulo the
  // counter, under any nesting of suspensions; and xPendedTicks is zero whenever
  // the scheduler runs.
  lemma NoTickLost(idle: Tid, steps: seq<Step>)
    requires Run(Start(idle), steps)
    ensures var k := Final(Start(idle), steps);
            Add(Low(k.now), k.pended) == Low(TickInterrupts(steps)) && (k.depth == 0 ==> k.pended == 0)
  {
    hide Inv, Start, Final, Run, TickInterrupts, Low, Add;
    StartInv(idle);
    RunKeepsInv(Start(idle), steps);
    InterruptsCounted(Start(idle), steps);
    TicksAccounted(Final(Start(idle), steps));
  }

  // ---------------------------------------------------------------------
  // There is always a task to run
  // ---------------------------------------------------------------------

  lemma HighestExists(s: Tasks, p: nat) returns (q: nat)
    requires p < MAX_PRIORITIES && Get(s.lists, Ready(p)).items != []
    ensures q >= p && HighestReady(s, q)
    decreases MAX_PRIORITIES - p
  {
    if r :| p < r < MAX_PRIORITIES && Get(s.lists, Ready(r)).items != [] {
      q := HighestExists(s, r);
    } else {
      q := p;
    }
  }

  // The idle task is always ready, so a context switch always finds a task, and
  // the task it selects is on the highest-priority list that is not empty.
  lemma AlwaysATask(k: Kernel) returns (p: nat)
    requires Inv(k) && k.depth == 0
    ensures Enabled(k, SwitchContext(p))
    ensures IsIn(k.tasks, Do(k, SwitchContext(p)).current, Ready(p))
    ensures forall t :: t in k.tasks.stateIn && k.tasks.stateIn[t].Ready? ==>
              At(k.tasks.priority, t) <= At(k.tasks.priority, Do(k, SwitchContext(p)).current)
  {
    var s := k.tasks;
    InList(s.lists, s.stateIn, s.stateIn[k.idle], k.idle);
    p := HighestExists(s, At(s.priority, k.idle));
    SwitchKeepsOrderly(k, p);
    forall t | t in s.stateIn && s.stateIn[t].Ready?
      ensures At(s.priority, t) <= p
    {
      InList(s.lists, s.stateIn, s.stateIn[t], t);
    }
  }
}
