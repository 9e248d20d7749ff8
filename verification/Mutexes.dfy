/** Mutexes and priority inheritance (tasks.c and the mutex paths of queue.c).

    A task that blocks on a mutex lends its priority to the holder; the holder
    gives it back when it gives its last mutex, or when the lender times out.
    The steps are the critical sections of taking, blocking, giving and timing
    out, and of vTaskPrioritySet. */
module Mutexes {
  import opened Identifiers
  import opened CursorLists
  import opened Options
  import Kernels

  type Mid = nat

  const MAX: nat := Kernels.MAX_PRIORITIES

  // What of a task's control block matters here.  The event item's value codes a
  // priority unless an event group has borrowed it.
  datatype Tcb = Tcb(priority: nat, base: nat, held: nat, value: nat, borrowed: bool)

  // covered: those of the waiters that blocked while the present holder held it
  datatype Mutex = Mutex(holder: Option<Tid>, waiters: seq<Tid>, covered: set<Tid>)

  // A take call that has blocked: on which mutex, its xInheritanceOccurred, and
  // whether it has timed out and found the mutex taken, so that it is to give up.
  datatype Call = Call(mutex: Mid, inherited: bool, givingUp: bool)

  datatype State = State(tasks: map<Tid, Tcb>, mutexes: map<Mid, Mutex>, calls: map<Tid, Call>)

  // ---------------------------------------------------------------------
  // The three functions of tasks.c
  // ---------------------------------------------------------------------

  function Code(priority: nat): nat {
    if priority <= MAX then MAX - priority else 0
  }

  // A task's priority changed from outside; its item value follows unless borrowed.
  function Reprioritised(tcb: Tcb, p: nat): Tcb {
    tcb.(priority := p, value := if tcb.borrowed then tcb.value else Code(p))
  }

  datatype Inherited = Inherited(tasks: map<Tid, Tcb>, occurred: bool)

  // xTaskPriorityInherit, by the running task t
  function Inherit(tasks: map<Tid, Tcb>, holder: Option<Tid>, t: Tid): Inherited
    requires t in tasks && (holder.Some? ==> holder.value in tasks)
  {
    if holder.None? then Inherited(tasks, false)
    else
      var h, p := holder.value, tasks[t].priority;
      if tasks[h].priority < p then Inherited(tasks[h := Reprioritised(tasks[h], p)], true)
      else Inherited(tasks, tasks[h].base < p)
  }

  // xTaskPriorityDisinherit of the task that gives a mutex
  function Disinherit(tcb: Tcb): Tcb
    requires tcb.held > 0
  {
    var tcb1 := tcb.(held := tcb.held - 1);
    if tcb1.priority != tcb1.base && tcb1.held == 0 then tcb1.(priority := tcb1.base, value := Code(tcb1.base))
    else tcb1
  }

  function PriorityToUse(tcb: Tcb, highestWaiting: nat): nat {
    if tcb.base < highestWaiting then highestWaiting else tcb.base
  }

  // The holder is to fall back after a time-out.
  predicate FallsBack(tcb: Tcb, highestWaiting: nat) {
    tcb.priority != PriorityToUse(tcb, highestWaiting) && tcb.held == 1
  }

  // vTaskPriorityDisinheritAfterTimeout
  function DisinheritAfterTimeout(tasks: map<Tid, Tcb>, holder: Option<Tid>, highestWaiting: nat): map<Tid, Tcb>
    requires holder.Some? ==> holder.value in tasks
  {
    if holder.None? then tasks
    else
      var tcb := tasks[holder.value];
      if FallsBack(tcb, highestWaiting)
      then tasks[holder.value := Reprioritised(tcb, PriorityToUse(tcb, highestWaiting))]
      else tasks
  }

  // vTaskPrioritySet
  function SetBase(tcb: Tcb, p: nat): Tcb {
    if tcb.base == p then tcb
    else
      tcb.(priority := if tcb.base == tcb.priority then p else tcb.priority, base := p,
           value := if tcb.borrowed then tcb.value else Code(p))
  }

  // ---------------------------------------------------------------------
  // Steps
  // ---------------------------------------------------------------------

  function Values(tasks: map<Tid, Tcb>, waiters: seq<Tid>): (r: seq<nat>)
    ensures |r| == |waiters|
    ensures forall i :: 0 <= i < |r| ==> r[i] == if waiters[i] in tasks then tasks[waiters[i]].value else 0
  {
    seq(|waiters|, i requires 0 <= i < |waiters| => if waiters[i] in tasks then tasks[waiters[i]].value else 0)
  }

  // prvGetDisinheritPriorityAfterTimeout
  function HighestWaiting(tasks: map<Tid, Tcb>, waiters: seq<Tid>): nat {
    if waiters == [] || waiters[0] !in tasks then 0 else Code(tasks[waiters[0]].value)
  }

  function Without(waiters: seq<Tid>, t: Tid): seq<Tid> {
    if t in waiters then DropAt(waiters, IndexOf(waiters, t)) else waiters
  }

  datatype Step =
    | Take(t: Tid, m: Mid)
    | Block(t: Tid, m: Mid)
    | Give(t: Tid, m: Mid)
    | Expire(t: Tid, m: Mid)
    | TimedOut(t: Tid, m: Mid)
    | GiveUp(t: Tid, m: Mid)
    | SetPriority(t: Tid, p: nat)
    | Borrow(t: Tid, value: nat)
    | Restore(t: Tid)
    | CreateTask(t: Tid, p: nat)
    | CreateMutex(m: Mid)

  // A task that runs a step of its own is on no mutex's list.
  predicate Running(s: State, t: Tid) {
    t in s.tasks && forall m :: m in s.mutexes ==> t !in s.mutexes[m].waiters
  }

  // ... and is in no take call, or in one on this mutex
  predicate MayTake(s: State, t: Tid, m: Mid) {
    Running(s, t) && m in s.mutexes && !s.tasks[t].borrowed
    && (t in s.calls ==> s.calls[t].mutex == m && !s.calls[t].givingUp)
  }

  predicate Enabled(s: State, step: Step) {
    match step
    case Take(t, m) => MayTake(s, t, m) && s.mutexes[m].holder.None?
    case Block(t, m) => MayTake(s, t, m) && s.mutexes[m].holder.Some? && s.mutexes[m].holder.value in s.tasks
    case Give(t, m) => Running(s, t) && t !in s.calls && m in s.mutexes && s.mutexes[m].holder == Some(t)
                       && s.tasks[t].held > 0
    case Expire(t, m) => m in s.mutexes && t in s.mutexes[m].waiters
    case TimedOut(t, m) => Running(s, t) && m in s.mutexes && t in s.calls && s.calls[t].mutex == m
                           && s.mutexes[m].holder.Some?
    case GiveUp(t, m) => Running(s, t) && m in s.mutexes && t in s.calls && s.calls[t].mutex == m && s.calls[t].givingUp
                         && (s.mutexes[m].holder.Some? ==> s.mutexes[m].holder.value in s.tasks)
    case SetPriority(t, p) => t in s.tasks && p < MAX
    case Borrow(t, _) => Running(s, t) && t !in s.calls
    case Restore(t) => t in s.tasks && s.tasks[t].borrowed
    case CreateTask(t, p) => t !in s.tasks && t !in s.calls && p < MAX
    case CreateMutex(m) => m !in s.mutexes
  }

  function Do(s: State, step: Step): State
    requires Enabled(s, step)
  {
    match step
    case Take(t, m) =>
      s.(tasks := s.tasks[t := s.tasks[t].(held := s.tasks[t].held + 1)],
         mutexes := s.mutexes[m := s.mutexes[m].(holder := Some(t), covered := {})], calls := s.calls - {t})
    case Block(t, m) =>
      var mutex := s.mutexes[m];
      var i := Inherit(s.tasks, mutex.holder, t);
      var at := InsertPos(Values(i.tasks, mutex.waiters), i.tasks[t].value);
      State(i.tasks, s.mutexes[m := mutex.(waiters := InsertAt(mutex.waiters, at, t), covered := mutex.covered + {t})],
            s.calls[t := Call(m, i.occurred, false)])
    case Give(t, m) =>
      var mutex := s.mutexes[m];
      s.(tasks := s.tasks[t := Disinherit(s.tasks[t])],
         mutexes := s.mutexes[m := Mutex(None, if mutex.waiters == [] then [] else mutex.waiters[1..], {})])
    case Expire(t, m) =>
      s.(mutexes := s.mutexes[m := s.mutexes[m].(waiters := Without(s.mutexes[m].waiters, t),
                                                 covered := s.mutexes[m].covered - {t})])
    case TimedOut(t, m) => s.(calls := s.calls[t := s.calls[t].(givingUp := true)])
    case GiveUp(t, m) =>
      s.(tasks := if s.calls[t].inherited
                  then DisinheritAfterTimeout(s.tasks, s.mutexes[m].holder,
                                              HighestWaiting(s.tasks, s.mutexes[m].waiters))
                  else s.tasks,
         calls := s.calls - {t})
    case SetPriority(t, p) => s.(tasks := s.tasks[t := SetBase(s.tasks[t], p)])
    case Borrow(t, value) => s.(tasks := s.tasks[t := s.tasks[t].(borrowed := true, value := value)])
    case Restore(t) => s.(tasks := s.tasks[t := s.tasks[t].(borrowed := false, value := Code(s.tasks[t].priority))])
    case CreateTask(t, p) => s.(tasks := s.tasks[t := Tcb(p, p, 0, Code(p), false)])
    case CreateMutex(m) => s.(mutexes := s.mutexes[m := Mutex(None, [], {})])
  }

  ghost predicate Run(s: State, steps: seq<Step>)
    decreases |steps|
  {
    steps == [] || (Enabled(s, steps[0]) && Run(Do(s, steps[0]), steps[1..]))
  }

  ghost function Final(s: State, steps: seq<Step>): State
    requires Run(s, steps)
    decreases |steps|
  {
    if steps == [] then s else Final(Do(s, steps[0]), steps[1..])
  }

  const START: State := State(map[], map[], map[])

  // ---------------------------------------------------------------------
  // No inherited priority is left behind
  // ---------------------------------------------------------------------

  ghost function HeldBy(mutexes: map<Mid, Mutex>, t: Tid): set<Mid> {
    set m | m in mutexes && mutexes[m].holder == Some(t)
  }

  ghost predicate Counted(tasks: map<Tid, Tcb>, mutexes: map<Mid, Mutex>) {
    && (forall t :: t in tasks ==> tasks[t].held == |HeldBy(mutexes, t)|)
    && (forall m :: m in mutexes && mutexes[m].holder.Some? ==> mutexes[m].holder.value in tasks)
  }

  ghost predicate NothingLeft(tasks: map<Tid, Tcb>) {
    forall t :: t in tasks && tasks[t].held == 0 ==> tasks[t].priority == tasks[t].base
  }

  lemma HolderCounts(tasks: map<Tid, Tcb>, mutexes: map<Mid, Mutex>, m: Mid)
    requires Counted(tasks, mutexes) && m in mutexes && mutexes[m].holder.Some?
    ensures mutexes[m].holder.value in tasks && tasks[mutexes[m].holder.value].held > 0
    ensures tasks[mutexes[m].holder.value].held == 1 ==> HeldBy(mutexes, mutexes[m].holder.value) == {m}
  {
    var held := HeldBy(mutexes, mutexes[m].holder.value);
    assert m in held;
    if |held| == 1 {
      assert |held - {m}| == 0;
    }
  }

  // A change of one mutex's holder moves it from one task's set to another's.
  lemma HolderChanged(mutexes: map<Mid, Mutex>, m: Mid, mutex: Mutex, t: Tid)
    ensures HeldBy(mutexes[m := mutex], t) == (HeldBy(mutexes, t) - {m}) + (if mutex.holder == Some(t) then {m} else {})
  {
  }

  lemma CountedAfterTake(tasks: map<Tid, Tcb>, mutexes: map<Mid, Mutex>, t: Tid, m: Mid, mutex: Mutex)
    requires Counted(tasks, mutexes) && t in tasks && m in mutexes && mutexes[m].holder.None? && mutex.holder == Some(t)
    ensures Counted(tasks[t := tasks[t].(held := tasks[t].held + 1)], mutexes[m := mutex])
  {
    forall u | u in tasks
      ensures |HeldBy(mutexes[m := mutex], u)| == |HeldBy(mutexes, u)| + (if u == t then 1 else 0)
    {
      HolderChanged(mutexes, m, mutex, u);
      assert m !in HeldBy(mutexes, u);
    }
  }

  lemma CountedAfterGive(tasks: map<Tid, Tcb>, mutexes: map<Mid, Mutex>, t: Tid, m: Mid, mutex: Mutex, tcb: Tcb)
    requires Counted(tasks, mutexes) && t in tasks && m in mutexes && mutexes[m].holder == Some(t) && mutex.holder.None?
    requires tcb.held == tasks[t].held - 1
    ensures Counted(tasks[t := tcb], mutexes[m := mutex])
  {
    forall u | u in tasks
      ensures |HeldBy(mutexes[m := mutex], u)| == |HeldBy(mutexes, u)| - (if u == t then 1 else 0)
    {
      HolderChanged(mutexes, m, mutex, u);
      assert m in HeldBy(mutexes, u) <==> u == t;
    }
  }

  lemma CountedSame(tasks: map<Tid, Tcb>, mutexes: map<Mid, Mutex>, tasks': map<Tid, Tcb>, mutexes': map<Mid, Mutex>)
    requires Counted(tasks, mutexes)
    requires forall t :: t in tasks ==> t in tasks' && tasks'[t].held == tasks[t].held
    requires forall t :: t in tasks' && t !in tasks ==> tasks'[t].held == 0
    requires forall m :: m in mutexes ==> m in mutexes' && mutexes'[m].holder == mutexes[m].holder
    requires forall m :: m in mutexes' && m !in mutexes ==> mutexes'[m].holder.None?
    ensures Counted(tasks', mutexes')
  {
    forall t
      ensures HeldBy(mutexes', t) == HeldBy(mutexes, t)
    {
    }
    forall t | t in tasks' && t !in tasks
      ensures HeldBy(mutexes, t) == {}
    {
    }
  }

  lemma StepCounts(s: State, step: Step)
    requires Counted(s.tasks, s.mutexes) && Enabled(s, step)
    ensures Counted(Do(s, step).tasks, Do(s, step).mutexes)
  {
    hide Values, InsertPos, Counted, HighestWaiting, Without;
    var s1 := Do(s, step);
    match step
    case Take(t, m) => CountedAfterTake(s.tasks, s.mutexes, t, m, s1.mutexes[m]);
    case Give(t, m) => CountedAfterGive(s.tasks, s.mutexes, t, m, s1.mutexes[m], s1.tasks[t]);
    case _ => CountedSame(s.tasks, s.mutexes, s1.tasks, s1.mutexes);
  }

  predicate Clean(tcb: Tcb) {
    tcb.held == 0 ==> tcb.priority == tcb.base
  }

  lemma OneTaskClean(tasks: map<Tid, Tcb>, t: Tid, tcb: Tcb)
    requires NothingLeft(tasks)
    ensures t in tasks ==> Clean(tasks[t])
    ensures Clean(tcb) ==> NothingLeft(tasks[t := tcb])
  {
  }

  lemma StepLeavesNothing(s: State, step: Step)
    requires Counted(s.tasks, s.mutexes) && NothingLeft(s.tasks) && Enabled(s, step)
    ensures NothingLeft(Do(s, step).tasks)
  {
    hide Values, InsertPos, HeldBy, NothingLeft, Counted;
    match step
    case Block(t, m) =>
      var h := s.mutexes[m].holder.value;
      HolderCounts(s.tasks, s.mutexes, m);
      OneTaskClean(s.tasks, h, Reprioritised(s.tasks[h], s.tasks[t].priority));
    case GiveUp(t, m) =>
      if s.mutexes[m].holder.Some? {
        var h := s.mutexes[m].holder.value;
        HolderCounts(s.tasks, s.mutexes, m);
        OneTaskClean(s.tasks, h,
                     Reprioritised(s.tasks[h],
                                   PriorityToUse(s.tasks[h], HighestWaiting(s.tasks, s.mutexes[m].waiters))));
      }
    case Expire(_, _) =>
    case TimedOut(_, _) =>
    case CreateMutex(_) =>
    case _ =>
      OneTaskClean(s.tasks, step.t, Do(s, step).tasks[step.t]);
  }

  // Each step keeps the count of mutexes held exact, and leaves no task with an
  // inherited priority once it holds none.
  lemma StepKeepsCount(s: State, step: Step)
    requires Counted(s.tasks, s.mutexes) && NothingLeft(s.tasks) && Enabled(s, step)
    ensures Counted(Do(s, step).tasks, Do(s, step).mutexes) && NothingLeft(Do(s, step).tasks)
  {
    hide Counted, NothingLeft, Do, Enabled;
    StepCounts(s, step);
    StepLeavesNothing(s, step);
  }

  lemma {:induction false} RunKeepsCount(s: State, steps: seq<Step>)
    requires Counted(s.tasks, s.mutexes) && NothingLeft(s.tasks) && Run(s, steps)
    ensures Counted(Final(s, steps).tasks, Final(s, steps).mutexes) && NothingLeft(Final(s, steps).tasks)
    decreases |steps|
  {
    hide Counted, NothingLeft;
    if steps != [] {
      StepKeepsCount(s, steps[0]);
      RunKeepsCount(Do(s, steps[0]), steps[1..]);
    }
  }

  // Over every run, mutexes taken and given in any order, waits timed out and
  // priorities set in between: uxMutexesHeld is the number of mutexes whose
  // holder the task is, and a task that holds none has its base priority.
  lemma NoPriorityLeftBehind(steps: seq<Step>, t: Tid)
    requires Run(START, steps) && t in Final(START, steps).tasks
    ensures var s := Final(START, steps);
            && s.tasks[t].held == |HeldBy(s.mutexes, t)|
            && (s.tasks[t].held == 0 ==> s.tasks[t].priority == s.tasks[t].base)
  {
    RunKeepsCount(START, steps);
  }

  // ---------------------------------------------------------------------
  // The inheritance bound
  // ---------------------------------------------------------------------

  // Tasks block on a mutex only while they hold none, and no priority is set.
  predicate Careful(s: State, step: Step) {
    !step.SetPriority? && (step.Block? && step.t in s.tasks ==> s.tasks[step.t].held == 0)
  }

  ghost predicate CarefulRun(s: State, steps: seq<Step>)
    requires Run(s, steps)
    decreases |steps|
  {
    steps == [] || (Careful(s, steps[0]) && CarefulRun(Do(s, steps[0]), steps[1..]))
  }

  predicate TcbOk(tcb: Tcb) {
    tcb.priority < MAX && tcb.base < MAX && (!tcb.borrowed ==> tcb.value == Code(tcb.priority))
  }

  ghost predicate TasksOk(tasks: map<Tid, Tcb>, calls: map<Tid, Call>) {
    && (forall t :: t in tasks ==> TcbOk(tasks[t]))
    && (forall t :: t in calls ==> t in tasks && tasks[t].held == 0 && !tasks[t].borrowed)
  }

  // The waiters of a mutex are in take calls on it and in order of their values,
  // and the holder's priority is at least that of each it covers.
  ghost predicate MutexOk(tasks: map<Tid, Tcb>, calls: map<Tid, Call>, m: Mid, mutex: Mutex) {
    && Distinct(mutex.waiters) && Sorted(Values(tasks, mutex.waiters))
    && (forall w :: w in mutex.waiters ==> w in calls && calls[w].mutex == m)
    && (forall w :: w in mutex.covered ==>
          && w in mutex.waiters && w in tasks && mutex.holder.Some? && mutex.holder.value in tasks
          && tasks[w].priority <= tasks[mutex.holder.value].priority)
  }

  ghost predicate Inv(s: State) {
    && Counted(s.tasks, s.mutexes) && TasksOk(s.tasks, s.calls)
    && forall m :: m in s.mutexes ==> MutexOk(s.tasks, s.calls, m, s.mutexes[m])
  }

  // A change of a task that is in no take call leaves a mutex in order, if the
  // task's priority does not sink or it does not hold this mutex.
  lemma MutexOkChanged(tasks: map<Tid, Tcb>, calls: map<Tid, Call>, m: Mid, mutex: Mutex, h: Tid, tcb: Tcb)
    requires MutexOk(tasks, calls, m, mutex) && h !in calls
    requires h in tasks && mutex.holder == Some(h) ==> tcb.priority >= tasks[h].priority
    ensures MutexOk(tasks[h := tcb], calls, m, mutex)
  {
    assert Values(tasks[h := tcb], mutex.waiters) == Values(tasks, mutex.waiters);
  }

  lemma MutexOkCalls(tasks: map<Tid, Tcb>, calls: map<Tid, Call>, m: Mid, mutex: Mutex, t: Tid, call: Call)
    requires MutexOk(tasks, calls, m, mutex) && t !in mutex.waiters
    ensures MutexOk(tasks, calls - {t}, m, mutex) && MutexOk(tasks, calls[t := call], m, mutex)
  {
  }

  lemma MutexOkFewer(tasks: map<Tid, Tcb>, calls: map<Tid, Call>, m: Mid, mutex: Mutex, t: Tid)
    requires MutexOk(tasks, calls, m, mutex) && t in mutex.waiters
    ensures MutexOk(tasks, calls, m, mutex.(waiters := Without(mutex.waiters, t), covered := mutex.covered - {t}))
  {
    var k := IndexOf(mutex.waiters, t);
    DropAtDistinct(mutex.waiters, k);
    DropKeepsSorted(Values(tasks, mutex.waiters), k);
    assert Values(tasks, DropAt(mutex.waiters, k)) == DropAt(Values(tasks, mutex.waiters), k);
  }

  lemma MutexOkMore(tasks: map<Tid, Tcb>, calls: map<Tid, Call>, m: Mid, mutex: Mutex, t: Tid)
    requires MutexOk(tasks, calls, m, mutex) && t !in mutex.waiters && t in calls && calls[t].mutex == m
    requires t in tasks && mutex.holder.Some? && mutex.holder.value in tasks
    requires tasks[t].priority <= tasks[mutex.holder.value].priority
    ensures var at := InsertPos(Values(tasks, mutex.waiters), tasks[t].value);
            MutexOk(tasks, calls, m, mutex.(waiters := InsertAt(mutex.waiters, at, t), covered := mutex.covered + {t}))
  {
    hide InsertPos;
    var v := Values(tasks, mutex.waiters);
    var at := InsertPos(v, tasks[t].value);
    InsertKeepsSorted(v, tasks[t].value);
    InsertAtDistinct(mutex.waiters, at, t);
    assert Values(tasks, InsertAt(mutex.waiters, at, t)) == InsertAt(v, at, tasks[t].value);
  }

  // The head of the waiting list has the highest priority on it.
  lemma HeadIsHighest(tasks: map<Tid, Tcb>, calls: map<Tid, Call>, m: Mid, mutex: Mutex, w: Tid)
    requires MutexOk(tasks, calls, m, mutex) && TasksOk(tasks, calls) && w in mutex.waiters
    ensures w in tasks && tasks[w].priority <= HighestWaiting(tasks, mutex.waiters) < MAX
  {
    var v := Values(tasks, mutex.waiters);
    var i :| 0 <= i < |mutex.waiters| && mutex.waiters[i] == w;
    assert mutex.waiters[0] in mutex.waiters;
    assert v[0] <= v[i];
  }

  lemma BlockKeepsInv(s: State, t: Tid, m: Mid)
    requires Inv(s) && Enabled(s, Block(t, m)) && s.tasks[t].held == 0
    ensures Inv(Do(s, Block(t, m)))
  {
    hide InsertPos, Values, Counted, MutexOk;
    var s1 := Do(s, Block(t, m));
    var h, call := s.mutexes[m].holder.value, s1.calls[t];
    HolderCounts(s.tasks, s.mutexes, m);
    StepCounts(s, Block(t, m));
    forall n | n in s.mutexes
      ensures MutexOk(s1.tasks, s1.calls, n, s.mutexes[n])
    {
      MutexOkChanged(s.tasks, s.calls, n, s.mutexes[n], h, s1.tasks[h]);
      assert s1.tasks == s.tasks[h := s1.tasks[h]];
      MutexOkCalls(s1.tasks, s.calls, n, s.mutexes[n], t, call);
    }
    MutexOkMore(s1.tasks, s1.calls, m, s.mutexes[m], t);
  }

  lemma TakeKeepsInv(s: State, t: Tid, m: Mid)
    requires Inv(s) && Enabled(s, Take(t, m))
    ensures Inv(Do(s, Take(t, m)))
  {
    hide Values, Counted, MutexOk;
    var s1 := Do(s, Take(t, m));
    StepCounts(s, Take(t, m));
    forall n | n in s.mutexes
      ensures MutexOk(s1.tasks, s1.calls, n, s.mutexes[n])
    {
      MutexOkCalls(s.tasks, s.calls, n, s.mutexes[n], t, Call(m, false, false));
      MutexOkChanged(s.tasks, s1.calls, n, s.mutexes[n], t, s1.tasks[t]);
    }
    NewHolder(s1.tasks, s1.calls, m, s.mutexes[m], Some(t));
  }

  lemma NewHolder(tasks: map<Tid, Tcb>, calls: map<Tid, Call>, m: Mid, mutex: Mutex, holder: Option<Tid>)
    requires MutexOk(tasks, calls, m, mutex)
    ensures MutexOk(tasks, calls, m, mutex.(holder := holder, covered := {}))
  {
  }

  lemma GiveKeepsInv(s: State, t: Tid, m: Mid)
    requires Inv(s) && Enabled(s, Give(t, m))
    ensures Inv(Do(s, Give(t, m)))
  {
    hide Values, Counted, MutexOk;
    var s1 := Do(s, Give(t, m));
    var mutex := s.mutexes[m];
    StepCounts(s, Give(t, m));
    forall n | n in s.mutexes && n != m
      ensures MutexOk(s1.tasks, s1.calls, n, s.mutexes[n])
    {
      OnlyMutex(s, t, m, n);
      MutexOkChanged(s.tasks, s.calls, n, s.mutexes[n], t, s1.tasks[t]);
    }
    GivenMutex(s.tasks, s.calls, m, mutex);
    MutexOkChanged(s.tasks, s.calls, m, s1.mutexes[m], t, s1.tasks[t]);
  }

  lemma GivenMutex(tasks: map<Tid, Tcb>, calls: map<Tid, Call>, m: Mid, mutex: Mutex)
    requires MutexOk(tasks, calls, m, mutex)
    ensures MutexOk(tasks, calls, m, Mutex(None, if mutex.waiters == [] then [] else mutex.waiters[1..], {}))
  {
    hide MutexOk, Without;
    NewHolder(tasks, calls, m, mutex, None);
    if mutex.waiters != [] {
      MutexOkFewer(tasks, calls, m, mutex.(holder := None, covered := {}), mutex.waiters[0]);
      HeadOff(mutex.waiters);
      assert {} - {mutex.waiters[0]} == {};
    }
  }

  // A holder of one mutex holds no other.
  lemma OnlyMutex(s: State, t: Tid, m: Mid, n: Mid)
    requires Counted(s.tasks, s.mutexes) && m in s.mutexes && n in s.mutexes && m != n && s.mutexes[m].holder == Some(t)
    ensures t in s.tasks && (s.tasks[t].held == 1 ==> s.mutexes[n].holder != Some(t))
  {
    HolderCounts(s.tasks, s.mutexes, m);
    assert s.mutexes[n].holder == Some(t) ==> n in HeldBy(s.mutexes, t);
  }

  lemma HeadOff(waiters: seq<Tid>)
    requires waiters != []
    ensures Without(waiters, waiters[0]) == waiters[1..]
  {
  }

  lemma ExpireKeepsInv(s: State, t: Tid, m: Mid)
    requires Inv(s) && Enabled(s, Expire(t, m))
    ensures Inv(Do(s, Expire(t, m)))
  {
    hide Values, Counted, MutexOk, Without;
    StepCounts(s, Expire(t, m));
    MutexOkFewer(s.tasks, s.calls, m, s.mutexes[m], t);
  }

  // The holder falls back no further than the waiters it still covers.
  lemma FallBack(tasks: map<Tid, Tcb>, calls: map<Tid, Call>, m: Mid, mutex: Mutex)
    requires MutexOk(tasks, calls, m, mutex) && TasksOk(tasks, calls)
    requires mutex.holder.Some? && mutex.holder.value in tasks && mutex.holder.value !in calls
    ensures var h, highest := mutex.holder.value, HighestWaiting(tasks, mutex.waiters);
            && MutexOk(tasks[h := Reprioritised(tasks[h], PriorityToUse(tasks[h], highest))], calls, m, mutex)
            && highest < MAX
  {
    hide Values, HighestWaiting;
    var h, highest := mutex.holder.value, HighestWaiting(tasks, mutex.waiters);
    var tasks' := tasks[h := Reprioritised(tasks[h], PriorityToUse(tasks[h], highest))];
    forall w | w in mutex.covered
      ensures w in tasks' && tasks'[w].priority <= tasks'[h].priority
    {
      HeadIsHighest(tasks, calls, m, mutex, w);
    }
    NewHolder(tasks, calls, m, mutex, None);
    MutexOkChanged(tasks, calls, m, mutex.(holder := None, covered := {}), h, tasks'[h]);
    WaitingBound(tasks, calls, mutex.waiters);
  }

  lemma WaitingBound(tasks: map<Tid, Tcb>, calls: map<Tid, Call>, waiters: seq<Tid>)
    requires TasksOk(tasks, calls) && forall w :: w in waiters ==> w in calls
    ensures HighestWaiting(tasks, waiters) < MAX
  {
    if waiters != [] {
      assert waiters[0] in waiters;
    }
  }

  lemma GiveUpKeepsInv(s: State, t: Tid, m: Mid)
    requires Inv(s) && Enabled(s, GiveUp(t, m))
    ensures Inv(Do(s, GiveUp(t, m)))
    ensures s.mutexes[m].holder != Some(t)
  {
    hide Values, Counted, MutexOk, HighestWaiting;
    var s1, mutex := Do(s, GiveUp(t, m)), s.mutexes[m];
    StepCounts(s, GiveUp(t, m));
    forall n | n in s.mutexes
      ensures MutexOk(s.tasks, s1.calls, n, s.mutexes[n])
    {
      MutexOkCalls(s.tasks, s.calls, n, s.mutexes[n], t, Call(m, false, false));
    }
    if mutex.holder.Some? {
      var h := mutex.holder.value;
      HolderCounts(s.tasks, s.mutexes, m);
      FallBack(s.tasks, s1.calls, m, mutex);
      forall n | n in s.mutexes && n != m && FallsBack(s.tasks[h], HighestWaiting(s.tasks, mutex.waiters))
        ensures MutexOk(s1.tasks, s1.calls, n, s.mutexes[n])
      {
        OnlyMutex(s, h, m, n);
        MutexOkChanged(s.tasks, s1.calls, n, s.mutexes[n], h, s1.tasks[h]);
      }
    }
  }

  lemma TimedOutKeepsInv(s: State, t: Tid, m: Mid)
    requires Inv(s) && Enabled(s, TimedOut(t, m))
    ensures Inv(Do(s, TimedOut(t, m)))
  {
    hide Values, Counted, MutexOk;
    StepCounts(s, TimedOut(t, m));
    forall n | n in s.mutexes
      ensures MutexOk(s.tasks, Do(s, TimedOut(t, m)).calls, n, s.mutexes[n])
    {
      MutexOkCalls(s.tasks, s.calls, n, s.mutexes[n], t, Do(s, TimedOut(t, m)).calls[t]);
    }
  }

  // The steps that change one task's own record
  lemma OwnStepKeepsInv(s: State, step: Step)
    requires Inv(s) && Enabled(s, step) && (step.Borrow? || step.Restore? || step.CreateTask?)
    ensures Inv(Do(s, step))
  {
    hide Values, Counted, MutexOk;
    var s1 := Do(s, step);
    StepCounts(s, step);
    forall n | n in s.mutexes
      ensures MutexOk(s1.tasks, s1.calls, n, s.mutexes[n])
    {
      MutexOkChanged(s.tasks, s.calls, n, s.mutexes[n], step.t, s1.tasks[step.t]);
    }
  }

  lemma CarefulStepKeepsInv(s: State, step: Step)
    requires Inv(s) && Enabled(s, step) && Careful(s, step)
    ensures Inv(Do(s, step))
  {
    hide Inv;
    match step
    case Take(t, m) => TakeKeepsInv(s, t, m);
    case Block(t, m) => BlockKeepsInv(s, t, m);
    case Give(t, m) => GiveKeepsInv(s, t, m);
    case Expire(t, m) => ExpireKeepsInv(s, t, m);
    case TimedOut(t, m) => TimedOutKeepsInv(s, t, m);
    case GiveUp(t, m) => GiveUpKeepsInv(s, t, m);
    case CreateMutex(m) => NewMutexKeepsInv(s, m);
    case _ => OwnStepKeepsInv(s, step);
  }

  lemma NewMutexKeepsInv(s: State, m: Mid)
    requires Inv(s) && Enabled(s, CreateMutex(m))
    ensures Inv(Do(s, CreateMutex(m)))
  {
    hide Counted;
    StepCounts(s, CreateMutex(m));
  }

  lemma {:induction false} CarefulRunKeepsInv(s: State, steps: seq<Step>)
    requires Inv(s) && Run(s, steps) && CarefulRun(s, steps)
    ensures Inv(Final(s, steps))
    decreases |steps|
  {
    hide Inv, Careful;
    if steps != [] {
      CarefulStepKeepsInv(s, steps[0]);
      CarefulRunKeepsInv(Do(s, steps[0]), steps[1..]);
    }
  }

  // From the moment a task blocks on a mutex until it leaves the list or the
  // mutex is given, the holder's priority is at least its own: several mutexes
  // held, and other waiters timing out, notwithstanding.
  lemma HolderInherits(steps: seq<Step>, m: Mid, w: Tid)
    requires Run(START, steps) && CarefulRun(START, steps)
    requires m in Final(START, steps).mutexes && w in Final(START, steps).mutexes[m].covered
    ensures var s := Final(START, steps);
            && w in s.mutexes[m].waiters && w in s.tasks
            && s.mutexes[m].holder.Some? && s.mutexes[m].holder.value in s.tasks
            && s.tasks[w].priority <= s.tasks[s.mutexes[m].holder.value].priority
  {
    CarefulRunKeepsInv(START, steps);
    assert MutexOk(Final(START, steps).tasks, Final(START, steps).calls, m, Final(START, steps).mutexes[m]);
  }

  // Who is covered: a task from when it blocks, until it expires or the mutex is
  // given; no other step uncovers anyone.
  lemma CoverageLasts(s: State, step: Step, m: Mid, w: Tid)
    requires Inv(s) && Enabled(s, step) && m in s.mutexes
    ensures step == Block(w, m) ==> w in Do(s, step).mutexes[m].covered
    ensures w in s.mutexes[m].covered && step != Expire(w, m) && !(step.Give? && step.m == m) ==>
              w in Do(s, step).mutexes[m].covered
  {
    hide Counted, TasksOk, Values, InsertPos;
    assert MutexOk(s.tasks, s.calls, m, s.mutexes[m]);
  }

  // ---- the bound without any restriction on the runs ----

  // The waiters of a mutex are in take calls on it, once each, and those it covers
  // are among them.
  ghost predicate Listed(tasks: map<Tid, Tcb>, calls: map<Tid, Call>, m: Mid, mutex: Mutex) {
    && Distinct(mutex.waiters)
    && (forall w :: w in mutex.waiters ==> w in tasks && w in calls && calls[w].mutex == m)
    && (forall w :: w in mutex.covered ==> w in mutex.waiters)
    && (mutex.covered != {} ==> mutex.holder.Some?)
  }

  ghost predicate Structured(s: State) {
    && Counted(s.tasks, s.mutexes)
    && (forall m :: m in s.mutexes ==> Listed(s.tasks, s.calls, m, s.mutexes[m]))
  }

  predicate Within(tasks: map<Tid, Tcb>, w: Tid, h: Option<Tid>) {
    w in tasks && h.Some? && h.value in tasks && tasks[w].priority <= tasks[h.value].priority
  }

  // Each holder's priority is at least that of every task that has blocked since it
  // took the mutex and still waits.
  ghost predicate Bound(s: State) {
    forall m, w :: m in s.mutexes && w in s.mutexes[m].covered ==> Within(s.tasks, w, s.mutexes[m].holder)
  }

  // x holds a mutex for which a task that it covers has a priority above p.
  ghost predicate TooLow(s: State, x: Tid, p: nat) {
    exists m, w :: m in s.mutexes && w in s.mutexes[m].covered && s.mutexes[m].holder == Some(x) && w != x
                   && w in s.tasks && s.tasks[w].priority > p
  }

  // x waits for a mutex that covers it, and the holder's priority is below p.
  ghost predicate TooHigh(s: State, x: Tid, p: nat) {
    exists m :: m in s.mutexes && x in s.mutexes[m].covered && s.mutexes[m].holder.Some?
                && s.mutexes[m].holder != Some(x) && s.mutexes[m].holder.value in s.tasks
                   && s.tasks[s.mutexes[m].holder.value].priority < p
  }

  // When a step gives a task the wrong priority: blocking on a mutex whose holder
  // itself waits for a task below; falling back below a task still waiting, or to a
  // base above one waited for; and vTaskPrioritySet in either direction.
  ghost predicate Breaks(s: State, step: Step)
    requires Enabled(s, step)
  {
    match step
    case Block(t, m) => TooHigh(s, s.mutexes[m].holder.value, s.tasks[t].priority)
    case GiveUp(t, m) =>
      s.calls[t].inherited && s.mutexes[m].holder.Some?
      && (var h, highest := s.mutexes[m].holder.value, HighestWaiting(s.tasks, s.mutexes[m].waiters);
          FallsBack(s.tasks[h], highest)
          && (TooLow(s, h, PriorityToUse(s.tasks[h], highest)) || TooHigh(s, h, PriorityToUse(s.tasks[h], highest))))
    case SetPriority(t, p) =>
      s.tasks[t].base == s.tasks[t].priority && s.tasks[t].base != p && (TooLow(s, t, p) || TooHigh(s, t, p))
    case _ => false
  }

  // Only x's priority changes.
  ghost predicate OnlyPriority(tasks: map<Tid, Tcb>, tasks': map<Tid, Tcb>, x: Tid, p: nat) {
    && tasks'.Keys == tasks.Keys && x in tasks && tasks'[x].priority == p
    && forall t :: t in tasks && t != x ==> tasks'[t].priority == tasks[t].priority
  }

  lemma OnePriority(s: State, s': State, x: Tid, p: nat)
    requires Bound(s) && OnlyPriority(s.tasks, s'.tasks, x, p) && s'.mutexes == s.mutexes
    ensures Bound(s') <==> !TooLow(s, x, p) && !TooHigh(s, x, p)
  {
    if !TooLow(s, x, p) && !TooHigh(s, x, p) {
      forall m, w | m in s.mutexes && w in s.mutexes[m].covered
        ensures Within(s'.tasks, w, s.mutexes[m].holder)
      {
        assert Within(s.tasks, w, s.mutexes[m].holder);
      }
    }
    if TooLow(s, x, p) {
      var m, w :| m in s.mutexes && w in s.mutexes[m].covered && s.mutexes[m].holder == Some(x) && w != x
                  && w in s.tasks && s.tasks[w].priority > p;
      assert !Within(s'.tasks, w, s.mutexes[m].holder);
    }
    if TooHigh(s, x, p) {
      var m :| m in s.mutexes && x in s.mutexes[m].covered && s.mutexes[m].holder.Some?
               && s.mutexes[m].holder != Some(x) && s.mutexes[m].holder.value in s.tasks
                  && s.tasks[s.mutexes[m].holder.value].priority < p;
      assert !Within(s'.tasks, x, s.mutexes[m].holder);
    }
  }

  predicate HolderSame(tasks: map<Tid, Tcb>, tasks': map<Tid, Tcb>, holder: Option<Tid>) {
    holder.Some? && holder.value in tasks ==>
      holder.value in tasks' && tasks'[holder.value].priority == tasks[holder.value].priority
  }

  // Steps that change no priority of a waiting task or of a holder keep the bound.
  lemma SamePriorities(s: State, s': State)
    requires Bound(s)
    requires forall m, w :: m in s'.mutexes && w in s'.mutexes[m].covered ==>
               && m in s.mutexes && w in s.mutexes[m].covered && s.mutexes[m].holder == s'.mutexes[m].holder
    requires forall m, w :: m in s'.mutexes && w in s'.mutexes[m].covered && w in s.tasks ==>
               w in s'.tasks && s'.tasks[w].priority == s.tasks[w].priority
    requires forall m, w :: m in s'.mutexes && w in s'.mutexes[m].covered ==>
               HolderSame(s.tasks, s'.tasks, s'.mutexes[m].holder)
    ensures Bound(s')
  {
    forall m, w | m in s'.mutexes && w in s'.mutexes[m].covered
      ensures Within(s'.tasks, w, s'.mutexes[m].holder)
    {
      assert Within(s.tasks, w, s.mutexes[m].holder);
    }
  }

  lemma BlockBound(s: State, t: Tid, m: Mid)
    requires Structured(s) && Bound(s) && Enabled(s, Block(t, m))
    ensures Bound(Do(s, Block(t, m))) <==> !Breaks(s, Block(t, m))
  {
    hide InsertPos, Values, Counted, Listed, TooLow, TooHigh;
    var h, p := s.mutexes[m].holder.value, s.tasks[t].priority;
    var s1 := Do(s, Block(t, m));
    NotTooHigh(s, h);
    OnePriority(s, State(s1.tasks, s.mutexes, s.calls), h, s1.tasks[h].priority);
    NotTooLow(s, h, s1.tasks[h].priority);
    CoverOneMore(s1, s.mutexes, m, t);
  }

  lemma NotTooHigh(s: State, h: Tid)
    requires Bound(s) && h in s.tasks
    ensures forall p: nat :: p <= s.tasks[h].priority ==> !TooHigh(s, h, p)
  {
    forall p: nat | p <= s.tasks[h].priority
      ensures !TooHigh(s, h, p)
    {
      forall m | m in s.mutexes && h in s.mutexes[m].covered
        ensures Within(s.tasks, h, s.mutexes[m].holder)
      {
      }
    }
  }

  lemma NotTooLow(s: State, h: Tid, p: nat)
    requires Bound(s) && h in s.tasks && p >= s.tasks[h].priority
    ensures !TooLow(s, h, p)
  {
    forall m, w | m in s.mutexes && w in s.mutexes[m].covered
      ensures Within(s.tasks, w, s.mutexes[m].holder)
    {
    }
  }

  lemma CoverOneMore(s1: State, mutexes: map<Mid, Mutex>, m: Mid, t: Tid)
    requires m in mutexes && m in s1.mutexes && Within(s1.tasks, t, mutexes[m].holder)
    requires s1.mutexes == mutexes[m := s1.mutexes[m]] && s1.mutexes[m].holder == mutexes[m].holder
    requires s1.mutexes[m].covered == mutexes[m].covered + {t}
    ensures Bound(s1) <==> Bound(s1.(mutexes := mutexes))
  {
    if Bound(s1.(mutexes := mutexes)) {
      forall n, w | n in s1.mutexes && w in s1.mutexes[n].covered
        ensures Within(s1.tasks, w, s1.mutexes[n].holder)
      {
        assert w in mutexes[n].covered || (n == m && w == t);
      }
    }
    if Bound(s1) {
      forall n, w | n in mutexes && w in mutexes[n].covered
        ensures Within(s1.tasks, w, mutexes[n].holder)
      {
        assert w in s1.mutexes[n].covered;
      }
    }
  }

  lemma GiveUpBound(s: State, t: Tid, m: Mid)
    requires Structured(s) && Bound(s) && Enabled(s, GiveUp(t, m))
    ensures Bound(Do(s, GiveUp(t, m))) <==> !Breaks(s, GiveUp(t, m))
  {
    hide Counted, Listed, TooLow, TooHigh, HighestWaiting;
    var s1 := Do(s, GiveUp(t, m));
    if s.mutexes[m].holder.Some? {
      var h := s.mutexes[m].holder.value;
      OnePriority(s, s1, h, s1.tasks[h].priority);
      NotTooHigh(s, h);
      NotTooLow(s, h, s.tasks[h].priority);
    } else {
      SamePriorities(s, s1);
    }
  }

  lemma SetPriorityBound(s: State, t: Tid, p: nat)
    requires Bound(s) && Enabled(s, SetPriority(t, p))
    ensures Bound(Do(s, SetPriority(t, p))) <==> !Breaks(s, SetPriority(t, p))
  {
    hide TooLow, TooHigh;
    OnePriority(s, Do(s, SetPriority(t, p)), t, Do(s, SetPriority(t, p)).tasks[t].priority);
    NotTooHigh(s, t);
    NotTooLow(s, t, s.tasks[t].priority);
  }

  lemma GiveBound(s: State, t: Tid, m: Mid)
    requires Structured(s) && Bound(s) && Enabled(s, Give(t, m))
    ensures Bound(Do(s, Give(t, m)))
  {
    GiverApart(s, t, m);
    hide Counted, Structured, Bound;
    SamePriorities(s, Do(s, Give(t, m)));
  }

  // The giver waits for nothing, and when it gives its last mutex it holds no other.
  lemma GiverApart(s: State, t: Tid, m: Mid)
    requires Structured(s) && Enabled(s, Give(t, m))
    ensures forall n :: n in s.mutexes && n != m && s.tasks[t].held == 1 ==> s.mutexes[n].holder != Some(t)
    ensures forall n, w :: n in s.mutexes && w in s.mutexes[n].covered ==> w != t
  {
    forall n | n in s.mutexes && n != m
      ensures s.tasks[t].held == 1 ==> s.mutexes[n].holder != Some(t)
    {
      OnlyMutex(s, t, m, n);
    }
    hide Counted;
    forall n, w | n in s.mutexes && w in s.mutexes[n].covered
      ensures w != t
    {
      assert Listed(s.tasks, s.calls, n, s.mutexes[n]);
    }
  }

  lemma OtherBound(s: State, step: Step)
    requires Structured(s) && Bound(s) && Enabled(s, step)
    requires step.Take? || step.Expire? || step.TimedOut? || step.Borrow? || step.Restore? || step.CreateTask?
             || step.CreateMutex?
    ensures Bound(Do(s, step))
  {
    hide Counted, Without;
    SamePriorities(s, Do(s, step));
  }

  // A step keeps the bound if and only if it does not break it in one of those ways.
  lemma BoundExactly(s: State, step: Step)
    requires Structured(s) && Bound(s) && Enabled(s, step)
    ensures Bound(Do(s, step)) <==> !Breaks(s, step)
  {
    match step
    case Block(t, m) => BlockBound(s, t, m);
    case GiveUp(t, m) => GiveUpBound(s, t, m);
    case SetPriority(t, p) => SetPriorityBound(s, t, p);
    case Give(t, m) => GiveBound(s, t, m);
    case _ => OtherBound(s, step);
  }

  lemma ListedFewer(tasks: map<Tid, Tcb>, calls: map<Tid, Call>, m: Mid, mutex: Mutex, t: Tid, holder: Option<Tid>)
    requires Listed(tasks, calls, m, mutex) && t in mutex.waiters
    ensures Listed(tasks, calls, m, mutex.(waiters := Without(mutex.waiters, t), covered := mutex.covered - {t}))
    ensures Listed(tasks, calls, m, Mutex(holder, Without(mutex.waiters, t), {}))
  {
    DropAtDistinct(mutex.waiters, IndexOf(mutex.waiters, t));
  }

  lemma ListedMore(tasks: map<Tid, Tcb>, calls: map<Tid, Call>, m: Mid, mutex: Mutex, t: Tid, at: nat)
    requires Listed(tasks, calls, m, mutex) && t !in mutex.waiters && t in tasks && t in calls && calls[t].mutex == m
    requires at <= |mutex.waiters| && mutex.holder.Some?
    ensures Listed(tasks, calls, m, mutex.(waiters := InsertAt(mutex.waiters, at, t), covered := mutex.covered + {t}))
  {
    InsertAtDistinct(mutex.waiters, at, t);
  }

  lemma ListedSame(tasks: map<Tid, Tcb>, calls: map<Tid, Call>, tasks': map<Tid, Tcb>, calls': map<Tid, Call>,
                   m: Mid, mutex: Mutex)
    requires Listed(tasks, calls, m, mutex)
    requires forall t :: t in tasks ==> t in tasks'
    requires forall t :: t in mutex.waiters && t in calls ==> t in calls' && calls'[t].mutex == calls[t].mutex
    ensures Listed(tasks', calls', m, mutex)
  {
  }

  lemma StepKeepsStructure(s: State, step: Step)
    requires Structured(s) && Enabled(s, step)
    ensures Structured(Do(s, step))
  {
    hide Counted, Listed, Without, InsertPos, Values;
    StepCounts(s, step);
    var s1 := Do(s, step);
    forall n | n in s.mutexes
      ensures Listed(s1.tasks, s1.calls, n, s.mutexes[n])
    {
      ListedSame(s.tasks, s.calls, s1.tasks, s1.calls, n, s.mutexes[n]);
    }
    match step {
      case Take(t, m) => ListedAnew(s1.tasks, s1.calls, m, s.mutexes[m], Some(t));
      case Block(t, m) =>
        var i := Inherit(s.tasks, s.mutexes[m].holder, t);
        ListedMore(s1.tasks, s1.calls, m, s.mutexes[m], t,
                   InsertPos(Values(i.tasks, s.mutexes[m].waiters), i.tasks[t].value));
      case Give(t, m) =>
        ListedAnew(s1.tasks, s1.calls, m, s.mutexes[m], None);
        if s.mutexes[m].waiters != [] {
          HeadOff(s.mutexes[m].waiters);
          ListedFewer(s1.tasks, s1.calls, m, s.mutexes[m], s.mutexes[m].waiters[0], None);
        }
      case Expire(t, m) => ListedFewer(s1.tasks, s1.calls, m, s.mutexes[m], t, None);
      case CreateMutex(m) => ListedNew(s1.tasks, s1.calls, m);
      case _ =>
    }
  }

  lemma ListedAnew(tasks: map<Tid, Tcb>, calls: map<Tid, Call>, m: Mid, mutex: Mutex, holder: Option<Tid>)
    requires Listed(tasks, calls, m, mutex)
    ensures Listed(tasks, calls, m, mutex.(holder := holder, covered := {}))
  {
  }

  lemma ListedNew(tasks: map<Tid, Tcb>, calls: map<Tid, Call>, m: Mid)
    ensures Listed(tasks, calls, m, Mutex(None, [], {}))
  {
  }

  ghost predicate AlwaysBound(s: State, steps: seq<Step>)
    requires Run(s, steps)
    decreases |steps|
  {
    Bound(s) && (steps == [] || AlwaysBound(Do(s, steps[0]), steps[1..]))
  }

  ghost predicate NoneBreaks(s: State, steps: seq<Step>)
    requires Run(s, steps)
    decreases |steps|
  {
    steps == [] || (!Breaks(s, steps[0]) && NoneBreaks(Do(s, steps[0]), steps[1..]))
  }

  lemma {:induction false} BoundOverRun(s: State, steps: seq<Step>)
    requires Structured(s) && Bound(s) && Run(s, steps)
    ensures AlwaysBound(s, steps) <==> NoneBreaks(s, steps)
    decreases |steps|
  {
    hide Structured, Bound, Breaks, Do, Enabled;
    if steps != [] {
      BoundExactly(s, steps[0]);
      StepKeepsStructure(s, steps[0]);
      if Bound(Do(s, steps[0])) {
        BoundOverRun(Do(s, steps[0]), steps[1..]);
      } else {
        assert !AlwaysBound(Do(s, steps[0]), steps[1..]);
      }
    }
  }

  // Over any run at all, with priorities set at will and tasks that wait while they
  // hold other mutexes: every holder has inherited enough throughout if and only if
  // no step was one of those.
  lemma InheritanceExactly(steps: seq<Step>)
    requires Run(START, steps)
    ensures AlwaysBound(START, steps) <==> NoneBreaks(START, steps)
  {
    BoundOverRun(START, steps);
  }

  // ---- whom a give wakes, and how far a holder falls back ----

  // A give takes one waiter off the list, if there is any, and no other.
  lemma GiveWakesOne(s: State, t: Tid, m: Mid)
    requires Structured(s) && Enabled(s, Give(t, m))
    ensures var w, w1 := s.mutexes[m].waiters, Do(s, Give(t, m)).mutexes[m].waiters;
            && |w1| == (if w == [] then 0 else |w| - 1)
            && (w != [] ==> exists u :: u in w && u !in w1 && forall v :: v in w && v != u ==> v in w1)
            && (forall v :: v in w1 ==> v in w)
  {
    var w := s.mutexes[m].waiters;
    assert Distinct(w) by { assert Listed(s.tasks, s.calls, m, s.mutexes[m]); }
    hide Counted, Listed, Enabled;
    if w != [] {
      assert Do(s, Give(t, m)).mutexes[m].waiters == w[1..];
      WithoutHead(w);
    }
  }

  lemma WithoutHead(w: seq<Tid>)
    requires w != [] && Distinct(w)
    ensures w[0] in w && w[0] !in w[1..] && forall v :: v in w[1..] <==> v in w && v != w[0]
  {
    assert forall i :: 0 <= i < |w[1..]| ==> w[1..][i] == w[i + 1];
    assert w == [w[0]] + w[1..];
  }

  // Over careful runs it is the waiter of the highest priority.
  lemma GiveWakesHighest(steps: seq<Step>, t: Tid, m: Mid)
    requires Run(START, steps) && CarefulRun(START, steps) && Enabled(Final(START, steps), Give(t, m))
    ensures var s, s1 := Final(START, steps), Do(Final(START, steps), Give(t, m));
            s.mutexes[m].waiters != [] ==>
              exists u :: && u in s.mutexes[m].waiters && u !in s1.mutexes[m].waiters && u in s.tasks
                          && (forall v :: v in s.mutexes[m].waiters && v != u ==> v in s1.mutexes[m].waiters)
                          && (forall v :: v in s1.mutexes[m].waiters ==>
                                v in s.tasks && s.tasks[v].priority <= s.tasks[u].priority)
  {
    CarefulRunKeepsInv(START, steps);
    var s := Final(START, steps);
    var w, w1 := s.mutexes[m].waiters, Do(s, Give(t, m)).mutexes[m].waiters;
    hide Counted, Run, CarefulRun, Final, Values;
    assert MutexOk(s.tasks, s.calls, m, s.mutexes[m]);
    if w != [] {
      assert w1 == w[1..];
      WithoutHead(w);
      forall v | v in w
        ensures v in s.tasks && s.tasks[v].priority <= s.tasks[w[0]].priority
      {
        HeadIsHighest(s.tasks, s.calls, m, s.mutexes[m], v);
        HeadCode(s.tasks, s.calls, m, s.mutexes[m]);
      }
    }
  }

  lemma HeadCode(tasks: map<Tid, Tcb>, calls: map<Tid, Call>, m: Mid, mutex: Mutex)
    requires MutexOk(tasks, calls, m, mutex) && TasksOk(tasks, calls) && mutex.waiters != []
    ensures mutex.waiters[0] in tasks && HighestWaiting(tasks, mutex.waiters) == tasks[mutex.waiters[0]].priority
  {
    assert mutex.waiters[0] in mutex.waiters;
  }

  // Over careful runs, a holder of this mutex alone that has lent from a task that
  // gives up keeps exactly the greatest of its base priority and those of the tasks
  // still waiting.
  lemma GiveUpFallsBack(steps: seq<Step>, t: Tid, m: Mid, h: Tid)
    requires Run(START, steps) && CarefulRun(START, steps) && Enabled(Final(START, steps), GiveUp(t, m))
    requires var s := Final(START, steps);
             s.calls[t].inherited && s.mutexes[m].holder == Some(h) && s.tasks[h].held == 1
    ensures var s, s1 := Final(START, steps), Do(Final(START, steps), GiveUp(t, m));
            && h in s1.tasks && s1.tasks[h].base == s.tasks[h].base <= s1.tasks[h].priority
            && (forall w :: w in s.mutexes[m].waiters ==>
                  w in s.tasks && s.tasks[w].priority <= s1.tasks[h].priority)
            && (s1.tasks[h].priority == s.tasks[h].base
                || exists w :: w in s.mutexes[m].waiters && w in s.tasks && s1.tasks[h].priority == s.tasks[w].priority)
  {
    CarefulRunKeepsInv(START, steps);
    var s := Final(START, steps);
    var s1 := Do(s, GiveUp(t, m));
    hide Counted, Run, CarefulRun, Final, Values, HighestWaiting;
    var mutex := s.mutexes[m];
    assert MutexOk(s.tasks, s.calls, m, mutex);
    NobodyWaiting(s.tasks, mutex.waiters);
    if mutex.waiters != [] {
      HeadCode(s.tasks, s.calls, m, mutex);
      assert mutex.waiters[0] in mutex.waiters;
    }
    forall w | w in mutex.waiters
      ensures w in s.tasks && s.tasks[w].priority <= s1.tasks[h].priority
    {
      HeadIsHighest(s.tasks, s.calls, m, mutex, w);
    }
  }

  lemma NobodyWaiting(tasks: map<Tid, Tcb>, waiters: seq<Tid>)
    ensures waiters == [] ==> HighestWaiting(tasks, waiters) == 0
  {
  }

  // ---- nobody waits for a free mutex in vain ----

  // w is in a call on m, has been taken off its list, and has yet to try again.
  ghost predicate Tries(calls: map<Tid, Call>, m: Mid, waiters: seq<Tid>, w: Tid) {
    w in calls && calls[w].mutex == m && !calls[w].givingUp && w !in waiters
  }

  ghost predicate Attended(calls: map<Tid, Call>, m: Mid, mutex: Mutex) {
    && Distinct(mutex.waiters)
    && (forall w :: w in mutex.waiters ==> w in calls && calls[w].mutex == m && !calls[w].givingUp)
    && (mutex.holder.None? && mutex.waiters != [] ==> exists w :: Tries(calls, m, mutex.waiters, w))
  }

  ghost predicate CallersFree(tasks: map<Tid, Tcb>, calls: map<Tid, Call>) {
    forall t :: t in calls ==> t in tasks && !tasks[t].borrowed
  }

  ghost predicate AllAttended(s: State) {
    && CallersFree(s.tasks, s.calls)
    && forall m :: m in s.mutexes ==> Attended(s.calls, m, s.mutexes[m])
  }

  // A call that ends or changes is missed by no free mutex that it does not try for.
  lemma CallChanges(calls: map<Tid, Call>, m: Mid, mutex: Mutex, t: Tid, call: Call)
    requires Attended(calls, m, mutex) && t !in mutex.waiters
    requires t in calls && calls[t].mutex == m && !calls[t].givingUp ==> mutex.holder.Some?
    ensures Attended(calls - {t}, m, mutex) && Attended(calls[t := call], m, mutex)
  {
    if mutex.holder.None? && mutex.waiters != [] {
      var w :| Tries(calls, m, mutex.waiters, w);
      assert Tries(calls - {t}, m, mutex.waiters, w) && Tries(calls[t := call], m, mutex.waiters, w);
    }
  }

  lemma TakenAttended(calls: map<Tid, Call>, m: Mid, mutex: Mutex, t: Tid)
    requires Attended(calls, m, mutex) && t !in mutex.waiters
    ensures Attended(calls - {t}, m, mutex.(holder := Some(t), covered := {}))
  {
  }

  lemma GivenAttended(calls: map<Tid, Call>, m: Mid, mutex: Mutex)
    requires Attended(calls, m, mutex)
    ensures Attended(calls, m, Mutex(None, if mutex.waiters == [] then [] else mutex.waiters[1..], {}))
  {
    if mutex.waiters != [] {
      var rest := mutex.waiters[1..];
      assert forall i :: 0 <= i < |rest| ==> rest[i] == mutex.waiters[i + 1];
      assert mutex.waiters[0] in mutex.waiters && Tries(calls, m, rest, mutex.waiters[0]);
    }
  }

  lemma ExpiredAttended(calls: map<Tid, Call>, m: Mid, mutex: Mutex, t: Tid)
    requires Attended(calls, m, mutex) && t in mutex.waiters
    ensures Attended(calls, m, mutex.(waiters := Without(mutex.waiters, t), covered := mutex.covered - {t}))
  {
    DropAtDistinct(mutex.waiters, IndexOf(mutex.waiters, t));
    assert Tries(calls, m, Without(mutex.waiters, t), t);
  }

  lemma BlockedAttended(calls: map<Tid, Call>, m: Mid, mutex: Mutex, t: Tid, call: Call, at: nat)
    requires Attended(calls, m, mutex) && t !in mutex.waiters && mutex.holder.Some? && at <= |mutex.waiters|
    requires call.mutex == m && !call.givingUp
    ensures Attended(calls[t := call], m,
                     mutex.(waiters := InsertAt(mutex.waiters, at, t), covered := mutex.covered + {t}))
  {
    InsertAtDistinct(mutex.waiters, at, t);
  }

  lemma OthersAttended(s: State, t: Tid, m: Mid, call: Call)
    requires AllAttended(s) && MayTake(s, t, m)
    ensures forall n :: n in s.mutexes && n != m ==>
              Attended(s.calls - {t}, n, s.mutexes[n]) && Attended(s.calls[t := call], n, s.mutexes[n])
  {
    forall n | n in s.mutexes && n != m
      ensures Attended(s.calls - {t}, n, s.mutexes[n]) && Attended(s.calls[t := call], n, s.mutexes[n])
    {
      CallChanges(s.calls, n, s.mutexes[n], t, call);
    }
  }

  lemma TakeOrBlockAttended(s: State, step: Step)
    requires AllAttended(s) && Enabled(s, step) && (step.Take? || step.Block?)
    ensures AllAttended(Do(s, step))
  {
    hide Attended, InsertPos, Values;
    var t, m, mutex := step.t, step.m, s.mutexes[step.m];
    match step {
      case Take(_, _) =>
        OthersAttended(s, t, m, Call(m, false, false));
        TakenAttended(s.calls, m, mutex, t);
      case Block(_, _) =>
        var i := Inherit(s.tasks, mutex.holder, t);
        OthersAttended(s, t, m, Call(m, i.occurred, false));
        BlockedAttended(s.calls, m, mutex, t, Call(m, i.occurred, false),
                        InsertPos(Values(i.tasks, mutex.waiters), i.tasks[t].value));
    }
  }

  lemma EndOfCallAttended(s: State, step: Step)
    requires AllAttended(s) && Enabled(s, step) && (step.TimedOut? || step.GiveUp?)
    ensures AllAttended(Do(s, step))
  {
    hide Attended, HighestWaiting;
    var t, call := step.t, s.calls[step.t].(givingUp := true);
    forall n | n in s.mutexes
      ensures Attended(s.calls - {t}, n, s.mutexes[n]) || step.TimedOut?
      ensures Attended(s.calls[t := call], n, s.mutexes[n])
    {
      CallChanges(s.calls, n, s.mutexes[n], t, call);
    }
  }

  lemma NewMutexAttended(calls: map<Tid, Call>, m: Mid)
    ensures Attended(calls, m, Mutex(None, [], {}))
  {
  }

  lemma StepKeepsAttended(s: State, step: Step)
    requires AllAttended(s) && Enabled(s, step)
    ensures AllAttended(Do(s, step))
  {
    hide Attended, HighestWaiting, InsertPos, Values, Without;
    match step
    case Take(_, _) => TakeOrBlockAttended(s, step);
    case Block(_, _) => TakeOrBlockAttended(s, step);
    case Give(_, m) => GivenAttended(s.calls, m, s.mutexes[m]);
    case Expire(t, m) => ExpiredAttended(s.calls, m, s.mutexes[m], t);
    case TimedOut(_, _) => EndOfCallAttended(s, step);
    case GiveUp(_, _) => EndOfCallAttended(s, step);
    case CreateMutex(m) => NewMutexAttended(s.calls, m);
    case _ =>
  }

  lemma {:induction false} RunKeepsAttended(s: State, steps: seq<Step>)
    requires AllAttended(s) && Run(s, steps)
    ensures AllAttended(Final(s, steps))
    decreases |steps|
  {
    hide AllAttended, Do, Enabled;
    if steps != [] {
      StepKeepsAttended(s, steps[0]);
      RunKeepsAttended(Do(s, steps[0]), steps[1..]);
    }
  }

  // Over any run: whenever tasks wait for a mutex that is free, some task that has
  // been taken off its list has yet to try again, and would take it at once.
  lemma FreeMutexIsTaken(steps: seq<Step>, m: Mid) returns (w: Tid)
    requires Run(START, steps) && m in Final(START, steps).mutexes
    requires Final(START, steps).mutexes[m].holder.None? && Final(START, steps).mutexes[m].waiters != []
    ensures var s := Final(START, steps);
            Tries(s.calls, m, s.mutexes[m].waiters, w) && Enabled(s, Take(w, m))
  {
    RunKeepsAttended(START, steps);
    var s := Final(START, steps);
    hide Run, Final;
    assert Attended(s.calls, m, s.mutexes[m]);
    w :| Tries(s.calls, m, s.mutexes[m].waiters, w);
    forall n | n in s.mutexes
      ensures w !in s.mutexes[n].waiters
    {
      assert Attended(s.calls, n, s.mutexes[n]);
    }
  }

  // ---- a priority that is set ----

  // The base priority stays as it was set, over any run that does not set it again.
  lemma {:induction false} BaseStays(s: State, steps: seq<Step>, t: Tid, p: nat)
    requires Run(s, steps) && t in s.tasks && s.tasks[t].base == p
    requires forall i :: 0 <= i < |steps| && steps[i].SetPriority? ==> steps[i].t != t
    ensures t in Final(s, steps).tasks && Final(s, steps).tasks[t].base == p
    decreases |steps|
  {
    if steps != [] {
      BaseStep(s, steps[0], t);
      hide Do, Enabled;
      BaseStays(Do(s, steps[0]), steps[1..], t, p);
    }
  }

  lemma BaseStep(s: State, step: Step, t: Tid)
    requires Enabled(s, step) && t in s.tasks && (step.SetPriority? ==> step.t != t)
    ensures t in Do(s, step).tasks && Do(s, step).tasks[t].base == s.tasks[t].base
  {
    hide InsertPos, Values, HighestWaiting;
  }

  // vTaskPrioritySet takes effect at once on a task that has not inherited, and on any
  // other by the time it holds no mutex any more.
  lemma PrioritySetTakesEffect(before: seq<Step>, t: Tid, p: nat, after: seq<Step>)
    requires Run(START, before) && Enabled(Final(START, before), SetPriority(t, p))
    requires Run(Do(Final(START, before), SetPriority(t, p)), after)
    requires forall i :: 0 <= i < |after| && after[i].SetPriority? ==> after[i].t != t
    ensures var s, s1 := Final(START, before), Do(Final(START, before), SetPriority(t, p));
            && s1.tasks[t].base == p
            && s1.tasks[t].priority == (if s.tasks[t].priority == s.tasks[t].base then p else s.tasks[t].priority)
            && t in Final(s1, after).tasks
            && (Final(s1, after).tasks[t].held == 0 ==> Final(s1, after).tasks[t].priority == p)
  {
    var s := Final(START, before);
    var s1 := Do(s, SetPriority(t, p));
    RunKeepsCount(START, before);
    StepKeepsCount(s, SetPriority(t, p));
    RunKeepsCount(s1, after);
    BaseStays(s1, after, t, p);
  }

  // ---- the assertion in vTaskPriorityDisinheritAfterTimeout ----

  // It demands that a task that times out is not itself the holder.
  predicate AssertionHolds(s: State, t: Tid, m: Mid)
    requires Enabled(s, GiveUp(t, m))
  {
    s.calls[t].inherited && s.mutexes[m].holder.Some?
    && FallsBack(s.tasks[s.mutexes[m].holder.value], HighestWaiting(s.tasks, s.mutexes[m].waiters))
    ==> s.mutexes[m].holder.value != t
  }

  // It holds in every run in which no task blocks on a mutex that it holds itself.
  predicate NotOnOwn(s: State, step: Step) {
    step.Block? && step.m in s.mutexes ==> s.mutexes[step.m].holder != Some(step.t)
  }

  ghost predicate NoneOnOwn(s: State, steps: seq<Step>)
    requires Run(s, steps)
    decreases |steps|
  {
    steps == [] || (NotOnOwn(s, steps[0]) && NoneOnOwn(Do(s, steps[0]), steps[1..]))
  }

  ghost predicate CallersHoldNot(s: State) {
    forall t :: t in s.calls && s.calls[t].mutex in s.mutexes ==> s.mutexes[s.calls[t].mutex].holder != Some(t)
  }

  ghost predicate CallsKnown(s: State) {
    forall t :: t in s.calls ==> s.calls[t].mutex in s.mutexes
  }

  lemma NotOnOwnStep(s: State, step: Step)
    requires CallersHoldNot(s) && CallsKnown(s) && Enabled(s, step) && NotOnOwn(s, step)
    ensures CallersHoldNot(Do(s, step)) && CallsKnown(Do(s, step))
  {
    hide InsertPos, Values, Inherit, DisinheritAfterTimeout;
  }

  lemma {:induction false} NotOnOwnRun(s: State, steps: seq<Step>)
    requires CallersHoldNot(s) && CallsKnown(s) && Run(s, steps) && NoneOnOwn(s, steps)
    ensures CallersHoldNot(Final(s, steps))
    decreases |steps|
  {
    hide CallersHoldNot, CallsKnown, NotOnOwn, Do, Enabled;
    if steps != [] {
      NotOnOwnStep(s, steps[0]);
      NotOnOwnRun(Do(s, steps[0]), steps[1..]);
    }
  }

  lemma NeverAsserts(steps: seq<Step>, t: Tid, m: Mid)
    requires Run(START, steps) && NoneOnOwn(START, steps) && Enabled(Final(START, steps), GiveUp(t, m))
    ensures AssertionHolds(Final(START, steps), t, m)
  {
    NotOnOwnRun(START, steps);
  }

  // A call in which t has blocked on m goes on until t takes m or gives up.
  predicate Continues(step: Step, t: Tid) {
    !(step.Take? && step.t == t) && !(step.GiveUp? && step.t == t)
  }

  // It may block again, if it is taken off the list before its time is up.
  predicate Retries(step: Step, t: Tid) {
    step.Block? && step.t == t
  }

  ghost predicate CallGoesOn(steps: seq<Step>, t: Tid, retrying: bool) {
    forall i :: 0 <= i < |steps| ==> Continues(steps[i], t) && (!retrying ==> !Retries(steps[i], t))
  }

  // The steps bring the call of t on m to a failing assertion.
  ghost predicate Trips(s: State, steps: seq<Step>, t: Tid, m: Mid, retrying: bool) {
    && Run(s, steps) && CallGoesOn(steps, t, retrying)
    && Enabled(Final(s, steps), GiveUp(t, m)) && !AssertionHolds(Final(s, steps), t, m)
  }

  // What a call of t on m, which t holds, keeps
  ghost predicate OnOwn(s: State, t: Tid, m: Mid, held: nat) {
    && t in s.tasks && t in s.calls && m in s.mutexes && s.mutexes[m].holder == Some(t)
    && s.calls[t].mutex == m && s.tasks[t].held == held
  }

  // ... and of a call on one that another task holds, or none
  ghost predicate OnOther(s: State, t: Tid, m: Mid) {
    t in s.calls && m in s.mutexes && s.mutexes[m].holder != Some(t) && s.calls[t].mutex == m
  }

  lemma OnOwnStep(s: State, step: Step, t: Tid, m: Mid, held: nat)
    requires OnOwn(s, t, m, held) && Enabled(s, step) && Continues(step, t)
    ensures OnOwn(Do(s, step), t, m, held)
    ensures !Retries(step, t) ==> Do(s, step).calls[t].inherited == s.calls[t].inherited
  {
    hide InsertPos, Values, HighestWaiting;
  }

  lemma OnOtherStep(s: State, step: Step, t: Tid, m: Mid)
    requires OnOther(s, t, m) && Enabled(s, step) && Continues(step, t)
    ensures OnOther(Do(s, step), t, m)
  {
    hide InsertPos, Values, Inherit, DisinheritAfterTimeout;
  }

  lemma {:induction false} OnOwnRun(s: State, steps: seq<Step>, t: Tid, m: Mid, held: nat, retrying: bool)
    requires OnOwn(s, t, m, held) && Run(s, steps) && CallGoesOn(steps, t, retrying)
    ensures OnOwn(Final(s, steps), t, m, held)
    ensures !retrying ==> Final(s, steps).calls[t].inherited == s.calls[t].inherited
    decreases |steps|
  {
    hide OnOwn, Do, Enabled, Continues, Retries;
    if steps != [] {
      assert Continues(steps[0], t);
      OnOwnStep(s, steps[0], t, m, held);
      OnOwnRun(Do(s, steps[0]), steps[1..], t, m, held, retrying);
    }
  }

  lemma {:induction false} OnOtherRun(s: State, steps: seq<Step>, t: Tid, m: Mid, retrying: bool)
    requires OnOther(s, t, m) && Run(s, steps) && CallGoesOn(steps, t, retrying)
    ensures OnOther(Final(s, steps), t, m)
    decreases |steps|
  {
    hide OnOther, Do, Enabled, Continues, Retries;
    if steps != [] {
      assert Continues(steps[0], t);
      OnOtherStep(s, steps[0], t, m);
      OnOtherRun(Do(s, steps[0]), steps[1..], t, m, retrying);
    }
  }

  lemma TripsAfter(s: State, step: Step, rest: seq<Step>, t: Tid, m: Mid, retrying: bool)
    requires Enabled(s, step) && Trips(Do(s, step), rest, t, m, retrying)
    requires Continues(step, t) && (!retrying ==> !Retries(step, t))
    ensures Trips(s, [step] + rest, t, m, retrying)
  {
    hide Do, Enabled, AssertionHolds, Continues, Retries;
    OneStep(s, step, rest);
    forall i | 0 <= i < |[step] + rest|
      ensures Continues(([step] + rest)[i], t) && (!retrying ==> !Retries(([step] + rest)[i], t))
    {
      assert i > 0 ==> ([step] + rest)[i] == rest[i - 1];
    }
  }

  // Once every waiter has expired there is no one left for whom the holder, which
  // has inherited, could keep its priority.
  lemma {:induction false} ExpireAll(s: State, t: Tid, m: Mid) returns (steps: seq<Step>)
    requires OnOwn(s, t, m, 1) && s.calls[t].inherited && s.tasks[t].base < s.tasks[t].priority
    requires forall n :: n in s.mutexes && n != m ==> t !in s.mutexes[n].waiters
    ensures Trips(s, steps, t, m, false)
    decreases |s.mutexes[m].waiters|
  {
    if s.mutexes[m].waiters == [] {
      TripsAfter(s, TimedOut(t, m), [], t, m, false);
      steps := [TimedOut(t, m)];
    } else {
      var step := Expire(s.mutexes[m].waiters[0], m);
      HeadOff(s.mutexes[m].waiters);
      var rest := ExpireAll(Do(s, step), t, m);
      TripsAfter(s, step, rest, t, m, false);
      steps := [step] + rest;
    }
  }

  // A task that blocks on a mutex it holds changes nobody's priority, and its own
  // is inherited or not as before.
  lemma BlockedOnOwn(s: State, t: Tid, m: Mid)
    requires Enabled(s, Block(t, m)) && s.mutexes[m].holder == Some(t)
    ensures var s1 := Do(s, Block(t, m));
            && OnOwn(s1, t, m, s.tasks[t].held) && s1.tasks == s.tasks
            && s1.calls[t].inherited == (s.tasks[t].base < s.tasks[t].priority)
            && (forall n :: n in s1.mutexes && n != m ==> t !in s1.mutexes[n].waiters)
            && Without(s1.mutexes[m].waiters, t) == s.mutexes[m].waiters && t in s1.mutexes[m].waiters
  {
    hide InsertPos, Values;
    hide Without, InsertAt;
    InsertedAlone(s.mutexes[m].waiters, InsertPos(Values(s.tasks, s.mutexes[m].waiters), s.tasks[t].value), t);
  }

  lemma InsertedAlone(w: seq<Tid>, at: nat, t: Tid)
    requires t !in w && at <= |w|
    ensures t in InsertAt(w, at, t) && Without(InsertAt(w, at, t), t) == w
  {
    var w1 := InsertAt(w, at, t);
    assert w1[at] == t;
    assert IndexOf(w1, t) == at;
    assert DropAt(w1, at) == w;
  }

  // While it waits, without another attempt, the assertion comes to fail in some
  // continuation exactly if the task holds this mutex alone and has inherited.
  lemma WaitTripsExactly(s: State, t: Tid, m: Mid)
    requires Enabled(s, Block(t, m))
    ensures (exists steps :: Trips(Do(s, Block(t, m)), steps, t, m, false))
       <==> s.mutexes[m].holder == Some(t) && s.tasks[t].held == 1 && s.tasks[t].base < s.tasks[t].priority
  {
    assert m in s.mutexes && t in s.tasks;
    hide Do, Enabled;
    TripsOnlyOnOwn(s, t, m);
    if s.mutexes[m].holder == Some(t) {
      BlockedOnOwn(s, t, m);
      var s1 := Do(s, Block(t, m));
      if s.tasks[t].held == 1 && s.tasks[t].base < s.tasks[t].priority {
        var steps := ExpireAll(s1, t, m);
      }
      forall steps | Trips(s1, steps, t, m, false)
        ensures s.tasks[t].base < s.tasks[t].priority
      {
        OnOwnRun(s1, steps, t, m, s.tasks[t].held, false);
      }
    }
  }

  lemma TripsOnlyOnOwn(s: State, t: Tid, m: Mid)
    requires Enabled(s, Block(t, m))
    ensures forall steps, retrying :: Trips(Do(s, Block(t, m)), steps, t, m, retrying) ==>
              s.mutexes[m].holder == Some(t) && s.tasks[t].held == 1
  {
    var s1 := Do(s, Block(t, m));
    assert s.mutexes[m].holder != Some(t) ==> OnOther(s1, t, m);
    hide Do, Enabled;
    forall steps, retrying | Trips(s1, steps, t, m, retrying)
      ensures s.mutexes[m].holder == Some(t) && s.tasks[t].held == 1
    {
      if s.mutexes[m].holder == Some(t) {
        BlockedOnOwn(s, t, m);
        OnOwnRun(s1, steps, t, m, s.tasks[t].held, retrying);
      } else {
        OnOtherRun(s1, steps, t, m, retrying);
      }
    }
  }

  // A call that waits for a mutex its task holds, and is about to try again
  ghost predicate Retrying(s: State, t: Tid, m: Mid) {
    OnOwn(s, t, m, 1) && Running(s, t) && !s.tasks[t].borrowed && !s.calls[t].givingUp
  }

  lemma RetryTrips(s: State, t: Tid, m: Mid) returns (steps: seq<Step>)
    requires Retrying(s, t, m) && s.tasks[t].base < s.tasks[t].priority
    ensures Trips(s, steps, t, m, true)
  {
    BlockedOnOwn(s, t, m);
    var rest := ExpireAll(Do(s, Block(t, m)), t, m);
    hide Do, Enabled, AssertionHolds;
    TripsAfter(s, Block(t, m), rest, t, m, true);
    steps := [Block(t, m)] + rest;
  }

  lemma {:induction false} NotIn(used: set<Tid>) returns (u: Tid)
    ensures forall v :: v in used ==> v < u
    decreases |used|
  {
    if v :| v in used {
      u := NotIn(used - {v});
      assert forall w :: w in used ==> w == v || w in used - {v};
      u := if u > v then u else v + 1;
    } else {
      u := 0;
    }
  }

  ghost function Waiting(mutexes: map<Mid, Mutex>): set<Tid> {
    set m, w | m in mutexes && w in mutexes[m].waiters :: w
  }

  // A new task of higher priority lends it, and then it has inherited.
  lemma LentTrips(s: State, t: Tid, m: Mid) returns (steps: seq<Step>)
    requires Retrying(s, t, m) && s.tasks[t].base == s.tasks[t].priority == 0
    ensures Trips(s, steps, t, m, true)
  {
    var u := NotIn(s.tasks.Keys + s.calls.Keys + Waiting(s.mutexes));
    forall n | n in s.mutexes
      ensures u !in s.mutexes[n].waiters
    {
      assert u in s.mutexes[n].waiters ==> u in Waiting(s.mutexes);
    }
    var s1 := Do(s, CreateTask(u, 1));
    assert Retrying(s1, t, m) && Enabled(s1, Block(u, m));
    var s2 := Do(s1, Block(u, m));
    LenderJoins(s1, u, t, m);
    steps := RetryTrips(s2, t, m);
    hide Do, Enabled, AssertionHolds;
    TripsAfter(s1, Block(u, m), steps, t, m, true);
    steps := [Block(u, m)] + steps;
    TripsAfter(s, CreateTask(u, 1), steps, t, m, true);
    steps := [CreateTask(u, 1)] + steps;
  }

  lemma LenderJoins(s: State, u: Tid, t: Tid, m: Mid)
    requires Retrying(s, t, m) && Enabled(s, Block(u, m)) && u != t && s.tasks[t].priority < s.tasks[u].priority
    ensures var s1 := Do(s, Block(u, m));
            Retrying(s1, t, m) && s1.tasks[t].priority == s.tasks[u].priority && s1.tasks[t].base == s.tasks[t].base
  {
    hide InsertPos, Values;
    var w1 := Do(s, Block(u, m)).mutexes[m].waiters;
    assert forall i :: 0 <= i < |w1| ==> w1[i] == u || w1[i] in s.mutexes[m].waiters;
  }

  // With its base priority set to zero, it either has inherited or can.
  lemma LoweredTrips(s: State, t: Tid, m: Mid) returns (steps: seq<Step>)
    requires Retrying(s, t, m)
    ensures Trips(s, steps, t, m, true)
  {
    var s1 := Do(s, SetPriority(t, 0));
    assert Retrying(s1, t, m) && s1.tasks[t].base == 0;
    if s1.tasks[t].priority > 0 {
      steps := RetryTrips(s1, t, m);
    } else {
      steps := LentTrips(s1, t, m);
    }
    hide AssertionHolds;
    TripsAfter(s, SetPriority(t, 0), steps, t, m, true);
    steps := [SetPriority(t, 0)] + steps;
  }

  // With further attempts allowed, the assertion comes to fail in some continuation
  // of the call exactly if the task holds this mutex and no other.
  lemma CallTripsExactly(s: State, t: Tid, m: Mid)
    requires Enabled(s, Block(t, m))
    ensures (exists steps :: Trips(Do(s, Block(t, m)), steps, t, m, true))
       <==> s.mutexes[m].holder == Some(t) && s.tasks[t].held == 1
  {
    assert m in s.mutexes && t in s.tasks;
    hide Do, Enabled, AssertionHolds, Retrying, OnOwn;
    TripsOnlyOnOwn(s, t, m);
    if s.mutexes[m].holder == Some(t) && s.tasks[t].held == 1 {
      var s1 := Do(s, Block(t, m));
      TakenOffEarly(s, t, m);
      var steps := LoweredTrips(Do(s1, Expire(t, m)), t, m);
      TripsAfter(s1, Expire(t, m), steps, t, m, true);
    }
  }

  // Off the list before its time is up, the task is about to try again.
  lemma TakenOffEarly(s: State, t: Tid, m: Mid)
    requires Enabled(s, Block(t, m)) && s.mutexes[m].holder == Some(t) && s.tasks[t].held == 1
    ensures var s1 := Do(s, Block(t, m)); Enabled(s1, Expire(t, m)) && Retrying(Do(s1, Expire(t, m)), t, m)
  {
    BlockedOnOwn(s, t, m);
    hide InsertPos, Values, Without;
  }

  // A holder that waits for its own mutex, with a time-out, trips it: task 2 lends
  // its priority to task 1, task 1 blocks on the mutex it holds, and then both
  // time out.
  const LOW: Tcb := Tcb(1, 1, 1, 4, false)
  const RAISED: Tcb := Tcb(3, 1, 1, 2, false)
  const HIGH: Tcb := Tcb(3, 3, 0, 2, false)

  function Held(low: Tcb, waiters: seq<Tid>, covered: set<Tid>, calls: map<Tid, Call>): State {
    State(map[1 := low, 2 := HIGH], map[0 := Mutex(Some(1), waiters, covered)], calls)
  }

  lemma LendPriority()
    ensures Enabled(Held(LOW, [], {}, map[]), Block(2, 0))
    ensures Do(Held(LOW, [], {}, map[]), Block(2, 0)) == Held(RAISED, [2], {2}, map[2 := Call(0, true, false)])
  {
    var i := Inherit(map[1 := LOW, 2 := HIGH], Some(1), 2);
    assert i == Inherited(map[1 := RAISED, 2 := HIGH], true);
    assert InsertPos(Values(i.tasks, []), 2) == 0;
    assert InsertAt([], 0, 2) == [2];
    assert {} + {2} == {2};
  }

  lemma WaitForOneself()
    ensures Enabled(Held(RAISED, [2], {2}, map[2 := Call(0, true, false)]), Block(1, 0))
    ensures Do(Held(RAISED, [2], {2}, map[2 := Call(0, true, false)]), Block(1, 0))
         == Held(RAISED, [2, 1], {1, 2}, map[1 := Call(0, true, false), 2 := Call(0, true, false)])
  {
    var tasks := map[1 := RAISED, 2 := HIGH];
    assert Inherit(tasks, Some(1), 1) == Inherited(tasks, true);
    assert Values(tasks, [2]) == [2];
    assert InsertPos([2], 2) == 1;
    assert InsertAt([2], 1, 1) == [2, 1];
    assert {2} + {1} == {1, 2};
  }

  lemma FirstExpires()
    ensures var c := Held(RAISED, [2, 1], {1, 2}, map[1 := Call(0, true, false), 2 := Call(0, true, false)]);
            var d := Held(RAISED, [1], {1}, map[1 := Call(0, true, false), 2 := Call(0, true, false)]);
            Enabled(c, Expire(2, 0)) && Do(c, Expire(2, 0)) == d
  {
    assert DropAt([2, 1], 0) == [1];
    assert {1, 2} - {2} == {1};
  }

  lemma FirstTimesOut()
    ensures var d := Held(RAISED, [1], {1}, map[1 := Call(0, true, false), 2 := Call(0, true, false)]);
            var d' := Held(RAISED, [1], {1}, map[1 := Call(0, true, false), 2 := Call(0, true, true)]);
            Enabled(d, TimedOut(2, 0)) && Do(d, TimedOut(2, 0)) == d'
  {
    assert map[1 := Call(0, true, false), 2 := Call(0, true, false)][2 := Call(0, true, true)]
        == map[1 := Call(0, true, false), 2 := Call(0, true, true)];
  }

  lemma FirstGivesUp()
    ensures var d := Held(RAISED, [1], {1}, map[1 := Call(0, true, false), 2 := Call(0, true, true)]);
            Enabled(d, GiveUp(2, 0)) && Do(d, GiveUp(2, 0)) == Held(RAISED, [1], {1}, map[1 := Call(0, true, false)])
  {
    assert map[1 := Call(0, true, false), 2 := Call(0, true, true)] - {2} == map[1 := Call(0, true, false)];
  }

  lemma SecondTimesOut()
    ensures var d := Held(RAISED, [1], {1}, map[1 := Call(0, true, false)]);
            var e := Held(RAISED, [], {}, map[1 := Call(0, true, false)]);
            var e' := Held(RAISED, [], {}, map[1 := Call(0, true, true)]);
            && Enabled(d, Expire(1, 0)) && Do(d, Expire(1, 0)) == e
            && Enabled(e, TimedOut(1, 0)) && Do(e, TimedOut(1, 0)) == e'
            && Enabled(e', GiveUp(1, 0)) && !AssertionHolds(e', 1, 0)
  {
    assert DropAt([1], 0) == [];
    assert {1} - {1} == {};
  }

  lemma TaskOneTakes()
    ensures var s1 := State(map[1 := Tcb(1, 1, 0, 4, false)], map[], map[]);
            var s2 := State(map[1 := Tcb(1, 1, 0, 4, false), 2 := HIGH], map[], map[]);
            var s3 := State(map[1 := Tcb(1, 1, 0, 4, false), 2 := HIGH], map[0 := Mutex(None, [], {})], map[]);
            && Enabled(START, CreateTask(1, 1)) && Do(START, CreateTask(1, 1)) == s1
            && Enabled(s1, CreateTask(2, 3)) && Do(s1, CreateTask(2, 3)) == s2
            && Enabled(s2, CreateMutex(0)) && Do(s2, CreateMutex(0)) == s3
            && Enabled(s3, Take(1, 0)) && Do(s3, Take(1, 0)) == Held(LOW, [], {}, map[])
  {
    assert map[1 := Tcb(1, 1, 0, 4, false), 2 := HIGH][1 := LOW] == map[1 := LOW, 2 := HIGH];
    var none: map<Tid, Call> := map[];
    assert none - {1} == none;
  }

  lemma OneStep(s: State, step: Step, rest: seq<Step>)
    requires Enabled(s, step) && Run(Do(s, step), rest)
    ensures Run(s, [step] + rest) && Final(s, [step] + rest) == Final(Do(s, step), rest)
  {
    assert ([step] + rest)[1..] == rest;
  }

  // A holder that has inherited enough, until the priority of the task that waits for
  // it is set above.
  lemma PrioritySetBreaks() returns (steps: seq<Step>)
    ensures Run(START, steps) && Enabled(Final(START, steps), SetPriority(2, 4))
    ensures Bound(Final(START, steps)) && Breaks(Final(START, steps), SetPriority(2, 4))
    ensures !Bound(Do(Final(START, steps), SetPriority(2, 4)))
  {
    var s := Held(RAISED, [2], {2}, map[2 := Call(0, true, false)]);
    var s1 := Do(s, SetPriority(2, 4));
    assert !Within(s1.tasks, 2, s1.mutexes[0].holder);
    SetPriorityBound(s, 2, 4);
    hide Do, Enabled, Bound, Breaks;
    LendPriority();
    steps := [];
    OneStep(Held(LOW, [], {}, map[]), Block(2, 0), steps);
    steps := UpToTheTake([Block(2, 0)] + steps, s);
  }

  // The steps from the start to where task 1 holds the mutex, and others after them
  lemma UpToTheTake(rest: seq<Step>, final: State) returns (steps: seq<Step>)
    requires Run(Held(LOW, [], {}, map[]), rest) && Final(Held(LOW, [], {}, map[]), rest) == final
    ensures Run(START, steps) && Final(START, steps) == final
  {
    hide Do, Enabled;
    TaskOneTakes();
    steps := rest;
    OneStep(State(map[1 := Tcb(1, 1, 0, 4, false), 2 := HIGH], map[0 := Mutex(None, [], {})], map[]), Take(1, 0),
            steps);
    steps := [Take(1, 0)] + steps;
    OneStep(State(map[1 := Tcb(1, 1, 0, 4, false), 2 := HIGH], map[], map[]), CreateMutex(0), steps);
    steps := [CreateMutex(0)] + steps;
    OneStep(State(map[1 := Tcb(1, 1, 0, 4, false)], map[], map[]), CreateTask(2, 3), steps);
    steps := [CreateTask(2, 3)] + steps;
    OneStep(START, CreateTask(1, 1), steps);
    steps := [CreateTask(1, 1)] + steps;
  }

  lemma SelfWaitAsserts() returns (steps: seq<Step>)
    ensures Run(START, steps) && Enabled(Final(START, steps), GiveUp(1, 0))
    ensures !AssertionHolds(Final(START, steps), 1, 0)
  {
    hide Do, Enabled, AssertionHolds;
    LendPriority();
    WaitForOneself();
    FirstExpires();
    FirstTimesOut();
    FirstGivesUp();
    SecondTimesOut();
    var one: map<Tid, Call> := map[1 := Call(0, true, false)];
    steps := [];
    OneStep(Held(RAISED, [], {}, one), TimedOut(1, 0), steps);
    steps := [TimedOut(1, 0)] + steps;
    OneStep(Held(RAISED, [1], {1}, one), Expire(1, 0), steps);
    steps := [Expire(1, 0)] + steps;
    OneStep(Held(RAISED, [1], {1}, map[1 := Call(0, true, false), 2 := Call(0, true, true)]), GiveUp(2, 0), steps);
    steps := [GiveUp(2, 0)] + steps;
    OneStep(Held(RAISED, [1], {1}, map[1 := Call(0, true, false), 2 := Call(0, true, false)]), TimedOut(2, 0), steps);
    steps := [TimedOut(2, 0)] + steps;
    OneStep(Held(RAISED, [2, 1], {1, 2}, map[1 := Call(0, true, false), 2 := Call(0, true, false)]), Expire(2, 0),
            steps);
    steps := [Expire(2, 0)] + steps;
    OneStep(Held(RAISED, [2], {2}, map[2 := Call(0, true, false)]), Block(1, 0), steps);
    steps := [Block(1, 0)] + steps;
    OneStep(Held(LOW, [], {}, map[]), Block(2, 0), steps);
    steps := [Block(2, 0)] + steps;
    steps := UpToTheTake(steps, Held(RAISED, [], {}, map[1 := Call(0, true, true)]));
  }

  // ---------------------------------------------------------------------
  // The code
  // ---------------------------------------------------------------------

  lemma GivenLast(s: State, t: Tid)
    requires Counted(s.tasks, s.mutexes) && NothingLeft(s.tasks) && t in s.tasks
    ensures HeldBy(s.mutexes, t) == {} ==> s.tasks[t].priority == s.tasks[t].base
  {
  }

  lemma HoldsOne(tasks: map<Tid, Tcb>, mutexes: map<Mid, Mutex>, m: Mid)
    requires Counted(tasks, mutexes) && m in mutexes
    ensures mutexes[m].holder.Some? ==>
              && mutexes[m].holder.value in tasks
              && (HeldBy(mutexes, mutexes[m].holder.value) == {m} ==> tasks[mutexes[m].holder.value].held == 1)
  {
  }

  class MutexUsers {
    var tasks: map<Tid, Tcb>
    var mutexes: map<Mid, Mutex>
    var calls: map<Tid, Call>

    ghost function S(): State
      reads this
    {
      State(tasks, mutexes, calls)
    }

    // The counts are exact, and no task that holds nothing has inherited.
    ghost predicate Valid()
      reads this
    {
      Counted(tasks, mutexes) && NothingLeft(tasks)
    }

    // listSET_LIST_ITEM_VALUE of an event item that is not in use for anything else
    method SetEventValue(t: Tid, p: nat)
      requires t in tasks
      modifies `tasks
      ensures tasks == if old(tasks)[t].borrowed then old(tasks) else old(tasks)[t := old(tasks)[t].(value := Code(p))]
    {
      if !tasks[t].borrowed {
        tasks := tasks[t := tasks[t].(value := Code(p))];
      }
    }

    // xTaskPriorityInherit
    method PriorityInherit(holder: Option<Tid>, current: Tid) returns (occurred: bool)
      requires current in tasks && (holder.Some? ==> holder.value in tasks)
      modifies `tasks
      ensures Inherited(tasks, occurred) == Inherit(old(tasks), holder, current)
      ensures holder.Some? ==> tasks[current].priority <= tasks[holder.value].priority
      ensures occurred <==> holder.Some? && (old(tasks)[holder.value].priority < old(tasks)[current].priority
                                             || old(tasks)[holder.value].base < old(tasks)[current].priority)
    {
      occurred := false;
      if holder.Some? {
        var h, p := holder.value, tasks[current].priority;
        if tasks[h].priority < p {
          SetEventValue(h, p);
          tasks := tasks[h := tasks[h].(priority := p)];
          occurred := true;
        } else if tasks[h].base < p {
          occurred := true;
        }
      }
    }

    // xTaskPriorityDisinherit
    method PriorityDisinherit(t: Tid)
      requires t in tasks && tasks[t].held > 0
      modifies `tasks
      ensures tasks == old(tasks)[t := Disinherit(old(tasks)[t])]
      ensures tasks[t].held == 0 ==> tasks[t].priority == tasks[t].base
    {
      tasks := tasks[t := tasks[t].(held := tasks[t].held - 1)];
      if tasks[t].priority != tasks[t].base {
        if tasks[t].held == 0 {
          tasks := tasks[t := tasks[t].(priority := tasks[t].base, value := Code(tasks[t].base))];
        }
      }
    }

    // vTaskPriorityDisinheritAfterTimeout
    method PriorityDisinheritAfterTimeout(holder: Option<Tid>, highestWaiting: nat)
      requires holder.Some? ==> holder.value in tasks
      modifies `tasks
      ensures tasks == DisinheritAfterTimeout(old(tasks), holder, highestWaiting)
    {
      if holder.Some? {
        var h := holder.value;
        var toUse := tasks[h].base;
        if tasks[h].base < highestWaiting {
          toUse := highestWaiting;
        }
        if tasks[h].priority != toUse {
          if tasks[h].held == 1 {
            tasks := tasks[h := tasks[h].(priority := toUse)];
            SetEventValue(h, toUse);
          }
        }
      }
    }

    // vTaskPrioritySet
    method PrioritySet(t: Tid, p: nat)
      requires t in tasks
      modifies `tasks
      ensures tasks == old(tasks)[t := SetBase(old(tasks)[t], p)]
    {
      if tasks[t].base != p {
        if tasks[t].base == tasks[t].priority {
          tasks := tasks[t := tasks[t].(priority := p)];
        }
        tasks := tasks[t := tasks[t].(base := p)];
        SetEventValue(t, p);
      }
    }

    // The critical section of xQueueSemaphoreTake on a mutex that is free
    method Take(t: Tid, m: Mid)
      requires Valid() && Enabled(S(), Step.Take(t, m))
      modifies this
      ensures Valid() && S() == Do(old(S()), Step.Take(t, m))
      ensures HeldBy(mutexes, t) == old(HeldBy(mutexes, t)) + {m} && t !in calls
    {
      hide Counted, NothingLeft;
      StepKeepsCount(S(), Step.Take(t, m));
      tasks := tasks[t := tasks[t].(held := tasks[t].held + 1)];
      mutexes := mutexes[m := mutexes[m].(holder := Some(t), covered := {})];
      calls := calls - {t};
    }

    // ... and on one that is not: inherit, and go on the waiting list
    method Block(t: Tid, m: Mid)
      requires Valid() && Enabled(S(), Step.Block(t, m))
      modifies this
      ensures Valid() && S() == Do(old(S()), Step.Block(t, m))
      ensures t in mutexes[m].waiters && mutexes[m].holder == old(mutexes)[m].holder
      ensures tasks[t].priority <= tasks[mutexes[m].holder.value].priority
    {
      hide Counted, NothingLeft;
      StepKeepsCount(S(), Step.Block(t, m));
      var mutex := mutexes[m];
      var occurred := PriorityInherit(mutex.holder, t);
      var at := InsertPos(Values(tasks, mutex.waiters), tasks[t].value);
      mutexes := mutexes[m := mutex.(waiters := InsertAt(mutex.waiters, at, t), covered := mutex.covered + {t})];
      calls := calls[t := Call(m, occurred, false)];
      assert mutexes[m].waiters[at] == t;
    }

    // xQueueGenericSend on a mutex
    method Give(t: Tid, m: Mid)
      requires Valid() && Enabled(S(), Step.Give(t, m))
      modifies this
      ensures Valid() && S() == Do(old(S()), Step.Give(t, m))
      ensures HeldBy(mutexes, t) == old(HeldBy(mutexes, t)) - {m}
      ensures HeldBy(mutexes, t) == {} ==> tasks[t].priority == tasks[t].base
    {
      hide Counted, NothingLeft;
      StepKeepsCount(S(), Step.Give(t, m));
      GivenLast(Do(S(), Step.Give(t, m)), t);
      PriorityDisinherit(t);
      mutexes := mutexes[m := mutexes[m].(holder := None, covered := {})];
      if mutexes[m].waiters != [] {
        mutexes := mutexes[m := mutexes[m].(waiters := mutexes[m].waiters[1..])];
      }
      assert mutexes == Do(old(S()), Step.Give(t, m)).mutexes;
    }

    // A take call that has timed out sees that the mutex is still taken.
    method FindTaken(t: Tid, m: Mid)
      requires Valid() && Enabled(S(), Step.TimedOut(t, m))
      modifies `calls
      ensures Valid() && S() == Do(old(S()), Step.TimedOut(t, m))
    {
      calls := calls[t := calls[t].(givingUp := true)];
    }

    // The end of a take call that has timed out
    method GiveUp(t: Tid, m: Mid)
      requires Valid() && Enabled(S(), Step.GiveUp(t, m))
      modifies this
      ensures Valid() && S() == Do(old(S()), Step.GiveUp(t, m)) && t !in calls
      ensures old(calls)[t].inherited && mutexes[m].holder.Some? && HeldBy(mutexes, mutexes[m].holder.value) == {m} ==>
                tasks[mutexes[m].holder.value].priority
                == PriorityToUse(old(tasks)[mutexes[m].holder.value], old(HighestWaiting(tasks, mutexes[m].waiters)))
    {
      HoldsOne(tasks, mutexes, m);
      hide Counted, NothingLeft;
      StepKeepsCount(S(), Step.GiveUp(t, m));
      if calls[t].inherited {
        PriorityDisinheritAfterTimeout(mutexes[m].holder, HighestWaiting(tasks, mutexes[m].waiters));
      }
      calls := calls - {t};
    }
  }
}
