/** The task lists of tasks.c, on an unbounded clock.

    This is the reference the scheduler is proved against (module Schedulers):
    one list of blocked tasks, ordered by the moment at which each is due, where
    the code keeps two lists ordered by a tick value that wraps.  The steps are
    the critical sections of tasks.c; they may follow one another in any order
    that the code's own conditions allow. */
module Kernels {
  import opened Identifiers
  import opened Ticks
  import opened CursorLists

  type TaskList = l: CList<Tid> | l.cursor <= |l.items| witness CList([], 0)

  // configMAX_PRIORITIES
  const MAX_PRIORITIES: nat := 5

  // The lists a task's state item can be on, and those its event item can be on.
  datatype ListId = Ready(priority: nat) | Blocked | Suspended | Terminating
  datatype EventId = PendingReady | Waiting(id: nat)

  datatype Tasks = Tasks(
    lists: map<ListId, TaskList>,
    stateIn: map<Tid, ListId>,      // the container of each state item
    events: map<EventId, TaskList>,
    eventIn: map<Tid, EventId>,     // the container of each event item on a list
    eventValue: map<Tid, nat>,      // the value of each event item
    priority: map<Tid, nat>,
    due: map<Tid, nat>)             // the moment a blocked task is to wake

  datatype Kernel = Kernel(
    tasks: Tasks,
    now: nat,                       // ticks processed
    pended: Tick,                   // xPendedTicks
    interrupts: nat,                // tick interrupts taken
    depth: nat,                     // uxSchedulerSuspended
    numberOfTasks: int,             // uxCurrentNumberOfTasks
    waitingCleanUp: int,            // uxDeletedTasksWaitingCleanUp
    current: Tid,
    idle: Tid)

  // ---------------------------------------------------------------------
  // Reading
  // ---------------------------------------------------------------------

  function Get<K>(m: map<K, TaskList>, key: K): TaskList {
    if key in m then m[key] else Empty()
  }

  function At(m: map<Tid, nat>, t: Tid): nat {
    if t in m then m[t] else 0
  }

  predicate IsIn(s: Tasks, t: Tid, id: ListId) {
    t in s.stateIn && s.stateIn[t] == id
  }

  predicate Waits(s: Tasks, t: Tid, e: EventId) {
    t in s.eventIn && s.eventIn[t] == e
  }

  // ---------------------------------------------------------------------
  // Moving one item
  // ---------------------------------------------------------------------

  function Drop(l: TaskList, t: Tid): TaskList {
    if t in l.items then Remove(l, t) else l
  }

  function Unlink(s: Tasks, t: Tid): Tasks {
    if t !in s.stateIn then s else
      s.(lists := s.lists[s.stateIn[t] := Drop(Get(s.lists, s.stateIn[t]), t)], stateIn := s.stateIn - {t})
  }

  function UnlinkEvent(s: Tasks, t: Tid): Tasks {
    if t !in s.eventIn then s else
      s.(events := s.events[s.eventIn[t] := Drop(Get(s.events, s.eventIn[t]), t)], eventIn := s.eventIn - {t})
  }

  function LinkEnd(s: Tasks, t: Tid, id: ListId): Tasks {
    s.(lists := s.lists[id := InsertEnd(Get(s.lists, id), t)], stateIn := s.stateIn[t := id])
  }

  function LinkDue(s: Tasks, t: Tid, moment: nat): Tasks {
    var l := Get(s.lists, Blocked);
    s.(lists := s.lists[Blocked := InsertBefore(l, InsertPos(Column(s.due, l.items), moment), t)],
       stateIn := s.stateIn[t := Blocked], due := s.due[t := moment])
  }

  function LinkEventEnd(s: Tasks, t: Tid, e: EventId): Tasks {
    s.(events := s.events[e := InsertEnd(Get(s.events, e), t)], eventIn := s.eventIn[t := e])
  }

  function LinkEventByValue(s: Tasks, t: Tid, e: EventId): Tasks {
    var l := Get(s.events, e);
    s.(events := s.events[e := InsertBefore(l, InsertPos(Column(s.eventValue, l.items), At(s.eventValue, t)), t)],
       eventIn := s.eventIn[t := e])
  }

  // prvAddTaskToReadyList, from whatever list the task is on
  function MakeReady(s: Tasks, t: Tid): Tasks {
    LinkEnd(Unlink(s, t), t, Ready(At(s.priority, t)))
  }

  // ... and off any event list it waits on, one task after another
  function ReadyAll(s: Tasks, ts: seq<Tid>): Tasks
    decreases |ts|
  {
    if ts == [] then s else ReadyAll(MakeReady(UnlinkEvent(s, ts[0]), ts[0]), ts[1..])
  }

  // The tasks due by a moment, in the order of the blocked list
  function Expired(s: Tasks, moment: nat): seq<Tid> {
    var items := Get(s.lists, Blocked).items;
    items[..InsertPos(Column(s.due, items), moment)]
  }

  // prvAddCurrentTaskToDelayedList
  function Delay(s: Tasks, t: Tid, now: nat, ticks: Tick, indefinitely: bool): Tasks {
    if ticks == MAX_DELAY && indefinitely then LinkEnd(Unlink(s, t), t, Suspended)
    else LinkDue(Unlink(s, t), t, now + ticks)
  }

  function Forget(s: Tasks, t: Tid): Tasks {
    s.(priority := s.priority - {t}, due := s.due - {t}, eventValue := s.eventValue - {t})
  }

  function SetEventValue(s: Tasks, t: Tid, value: nat): Tasks {
    s.(eventValue := s.eventValue[t := value])
  }

  // prvTaskIsTaskSuspended
  predicate IsSuspended(s: Tasks, t: Tid) {
    IsIn(s, t, Suspended) && t !in s.eventIn
  }

  // The highest priority that has a ready task
  predicate HighestReady(s: Tasks, p: nat) {
    p < MAX_PRIORITIES && Get(s.lists, Ready(p)).items != []
    && forall q :: p < q < MAX_PRIORITIES ==> Get(s.lists, Ready(q)).items == []
  }

  // ---------------------------------------------------------------------
  // Steps
  // ---------------------------------------------------------------------

  // One tick, by the naive rule: look at every blocked task each time.
  function OneTick(k: Kernel): Kernel {
    k.(tasks := ReadyAll(k.tasks, Expired(k.tasks, k.now + 1)), now := k.now + 1)
  }

  function TickTimes(k: Kernel, n: nat): Kernel
    decreases n
  {
    if n == 0 then k else TickTimes(OneTick(k), n - 1)
  }

  function ReadyPending(k: Kernel): Kernel {
    k.(tasks := ReadyAll(k.tasks, Get(k.tasks.events, PendingReady).items))
  }

  // xTaskResumeAll
  function ResumeAll(k: Kernel): Kernel
    requires k.depth > 0
  {
    if k.depth > 1 then k.(depth := k.depth - 1)
    else TickTimes(ReadyPending(k.(depth := 0)), k.pended).(pended := 0)
  }

  // xTaskRemoveFromEventList
  function WakeTask(k: Kernel, t: Tid): Kernel {
    var s := UnlinkEvent(k.tasks, t);
    k.(tasks := if k.depth == 0 then MakeReady(s, t) else LinkEventEnd(s, t, PendingReady))
  }

  // taskSELECT_HIGHEST_PRIORITY_TASK at a given highest priority
  function Select(k: Kernel, p: nat): Kernel
    requires Get(k.tasks.lists, Ready(p)).items != []
  {
    var l := Next(Get(k.tasks.lists, Ready(p)));
    k.(tasks := k.tasks.(lists := k.tasks.lists[Ready(p) := l]), current := Selected(l))
  }

  datatype Step =
    | TickInterrupt
    | SuspendAll
    | ResumeTheScheduler
    | DelayCurrent(ticks: Tick, indefinitely: bool)
    | PlaceOnEventList(e: EventId, ticks: Tick)
    | PlaceOnUnorderedEventList(e: EventId, value: nat, ticks: Tick)
    | RemoveFromEventList(e: EventId)
    | RemoveFromUnorderedEventList(t: Tid, value: nat)
    | ResetEventItemValue
    | SuspendTask(t: Tid)
    | ResumeTask(t: Tid)
    | ResumeFromISR(t: Tid)
    | DeleteTask(t: Tid)
    | ReapTerminated
    | CreateTask(t: Tid, p: nat)
    | ChangePriority(t: Tid, p: nat, value: nat)
    | SwitchContext(p: nat)

  // A task that calls a blocking function is running, so it is ready and waits
  // for nothing; the idle task must not block.
  predicate CanBlock(k: Kernel) {
    k.current in k.tasks.stateIn && k.tasks.stateIn[k.current].Ready? && k.current != k.idle
  }

  // A task may be suspended or deleted unless it is the idle task or has been
  // deleted already; the running task only while the scheduler is not suspended.
  predicate CanStop(k: Kernel, t: Tid) {
    && t in k.tasks.stateIn && k.tasks.stateIn[t] != Terminating && t != k.idle
    && (t == k.current ==> k.depth == 0)
  }

  // What the code demands of a caller, or checks before the step.
  predicate Enabled(k: Kernel, step: Step) {
    match step
    case TickInterrupt => true
    case SuspendAll => true
    case ResumeTheScheduler => k.depth > 0
    case DelayCurrent(ticks, _) => CanBlock(k) && ticks > 0
    case PlaceOnEventList(e, ticks) => CanBlock(k) && ticks > 0 && e != PendingReady
    case PlaceOnUnorderedEventList(e, _, ticks) => CanBlock(k) && ticks > 0 && e != PendingReady
    case RemoveFromEventList(e) => e != PendingReady && Get(k.tasks.events, e).items != []
    case RemoveFromUnorderedEventList(t, _) => k.depth > 0 && t in k.tasks.eventIn && k.tasks.eventIn[t] != PendingReady
    case ResetEventItemValue => true
    case SuspendTask(t) => CanStop(k, t)
    case ResumeTask(t) => t in k.tasks.stateIn
    case ResumeFromISR(t) => t in k.tasks.stateIn
    case DeleteTask(t) => CanStop(k, t)
    case ReapTerminated =>
      k.current == k.idle && k.waitingCleanUp > 0 && Get(k.tasks.lists, Terminating).items != []
    case CreateTask(t, p) => t !in k.tasks.stateIn && p < MAX_PRIORITIES
    case ChangePriority(t, p, _) => t in k.tasks.stateIn && p < MAX_PRIORITIES
    case SwitchContext(p) => k.depth == 0 && HighestReady(k.tasks, p)
  }

  function Do(k: Kernel, step: Step): Kernel
    requires Enabled(k, step)
  {
    match step
    case TickInterrupt =>
      var k1 := k.(interrupts := k.interrupts + 1);
      if k.depth == 0 then OneTick(k1) else k1.(pended := Add(k.pended, 1))
    case SuspendAll => k.(depth := k.depth + 1)
    case ResumeTheScheduler => ResumeAll(k)
    case DelayCurrent(ticks, indefinitely) =>
      k.(tasks := Delay(k.tasks, k.current, k.now, ticks, indefinitely))
    case PlaceOnEventList(e, ticks) =>
      k.(tasks := Delay(LinkEventByValue(k.tasks, k.current, e), k.current, k.now, ticks, true))
    case PlaceOnUnorderedEventList(e, value, ticks) =>
      var s := SetEventValue(k.tasks, k.current, value);
      k.(tasks := Delay(LinkEventEnd(s, k.current, e), k.current, k.now, ticks, true))
    case RemoveFromEventList(e) => WakeTask(k, Get(k.tasks.events, e).items[0])
    case RemoveFromUnorderedEventList(t, value) =>
      k.(tasks := MakeReady(UnlinkEvent(SetEventValue(k.tasks, t, value), t), t))
    case ResetEventItemValue =>
      var p := At(k.tasks.priority, k.current);
      k.(tasks := SetEventValue(k.tasks, k.current, if p < MAX_PRIORITIES then MAX_PRIORITIES - p else 0))
    case SuspendTask(t) => k.(tasks := LinkEnd(UnlinkEvent(Unlink(k.tasks, t), t), t, Suspended))
    case ResumeTask(t) => if t != k.current && IsSuspended(k.tasks, t) then k.(tasks := MakeReady(k.tasks, t)) else k
    case ResumeFromISR(t) =>
      if !IsSuspended(k.tasks, t) then k
      else if k.depth == 0 then k.(tasks := MakeReady(k.tasks, t))
      else k.(tasks := LinkEventEnd(k.tasks, t, PendingReady))
    case DeleteTask(t) =>
      var s := UnlinkEvent(Unlink(k.tasks, t), t);
      if t == k.current then k.(tasks := LinkEnd(s, t, Terminating), waitingCleanUp := k.waitingCleanUp + 1)
      else k.(tasks := Forget(s, t), numberOfTasks := k.numberOfTasks - 1)
    case ReapTerminated =>
      var t := Get(k.tasks.lists, Terminating).items[0];
      k.(tasks := Forget(Unlink(k.tasks, t), t), numberOfTasks := k.numberOfTasks - 1,
         waitingCleanUp := k.waitingCleanUp - 1)
    case CreateTask(t, p) =>
      var s := k.tasks.(priority := k.tasks.priority[t := p],
                        eventValue := k.tasks.eventValue[t := MAX_PRIORITIES - p]);
      k.(tasks := LinkEnd(s, t, Ready(p)), numberOfTasks := k.numberOfTasks + 1)
    case ChangePriority(t, p, value) =>
      var s := k.tasks.(priority := k.tasks.priority[t := p], eventValue := k.tasks.eventValue[t := value]);
      k.(tasks := if s.stateIn[t].Ready? then MakeReady(s, t) else s)
    case SwitchContext(p) => Select(k, p)
  }

  // ---------------------------------------------------------------------
  // The invariant
  // ---------------------------------------------------------------------

  // Each item is on exactly the list its container field names, once.
  ghost predicate Partition<K(!new)>(lists: map<K, TaskList>, container: map<Tid, K>) {
    forall id, t {:trigger multiset(Get(lists, id).items)[t]} ::
      multiset(Get(lists, id).items)[t] == if t in container && container[t] == id then 1 else 0
  }

  ghost predicate Prioritised(priority: map<Tid, nat>, stateIn: map<Tid, ListId>) {
    && (forall t :: t in priority <==> t in stateIn)
    && (forall t :: t in priority ==> priority[t] < MAX_PRIORITIES)
    && (forall t :: t in stateIn && stateIn[t].Ready? ==> stateIn[t] == Ready(At(priority, t)))
  }

  ghost predicate WaitersBlocked(eventIn: map<Tid, EventId>, stateIn: map<Tid, ListId>) {
    forall t :: t in eventIn ==> t in stateIn && (stateIn[t] == Blocked || stateIn[t] == Suspended)
  }

  ghost predicate ByDue(due: map<Tid, nat>, blocked: TaskList) {
    Sorted(Column(due, blocked.items))
  }

  // Every blocked task is due after the present, at most one wrap ahead.
  ghost predicate Ahead(due: map<Tid, nat>, stateIn: map<Tid, ListId>, now: nat) {
    forall t :: t in stateIn && stateIn[t] == Blocked ==> now < At(due, t) <= now + MAX_DELAY
  }

  ghost predicate NothingPending(eventIn: map<Tid, EventId>) {
    forall t :: t in eventIn ==> eventIn[t] != PendingReady
  }

  ghost predicate Core(s: Tasks) {
    && Partition(s.lists, s.stateIn) && Partition(s.events, s.eventIn)
    && Prioritised(s.priority, s.stateIn) && WaitersBlocked(s.eventIn, s.stateIn)
    && ByDue(s.due, Get(s.lists, Blocked))
  }

  ghost predicate Orderly(k: Kernel) {
    && Core(k.tasks) && Ahead(k.tasks.due, k.tasks.stateIn, k.now)
    && (k.depth == 0 ==> NothingPending(k.tasks.eventIn))
    && Low(k.now + k.pended) == Low(k.interrupts)
    && (k.depth == 0 ==> k.pended == 0)
    && k.idle in k.tasks.stateIn && k.tasks.stateIn[k.idle].Ready?
    && k.current in k.tasks.stateIn
  }

  ghost function On(stateIn: map<Tid, ListId>, id: ListId): set<Tid> {
    set t | t in stateIn && stateIn[t] == id
  }

  // The two counters are exact.
  ghost predicate Counted(k: Kernel) {
    k.numberOfTasks == |k.tasks.stateIn| && k.waitingCleanUp == |On(k.tasks.stateIn, Terminating)|
  }

  ghost predicate Inv(k: Kernel) {
    Orderly(k) && Counted(k)
  }
}
