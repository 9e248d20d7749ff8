/** No wake-up is lost on a queue (queue.c), under any interleaving of tasks and
    interrupts.

    A task's call is cut at the boundaries of its critical sections, between which
    interrupts, and while the scheduler runs other tasks, may act: it tries; if
    that fails it suspends the scheduler, locks the queue, looks again, goes on
    the waiting list, unlocks each side in turn, and resumes the scheduler. */
module QueueProtocol {
  import opened Identifiers
  import opened CursorLists
  import opened Options
  import opened QueueSides

  datatype Kind = Receiving | Peeking | Sending

  // What the task will do once it has unlocked the queue and resumed
  datatype Next = TryAgain | Wait | TimedOut

  datatype Pc =
    | Outside
    | Try(kind: Kind)             // about to run its critical section, once it runs
    | Refused(kind: Kind)         // it found nothing, and may wait
    | Suspended(kind: Kind)
    | Locked(kind: Kind)
    | FoundNothing(kind: Kind)    // ... again, under the lock: about to wait
    | UnlockTx(kind: Kind, next: Next)
    | UnlockRx(kind: Kind, next: Next)
    | Resume(kind: Kind, next: Next)
    | LastLook(kind: Kind)        // timed out, and about to see whether to give up

  // receivers: xTasksWaitingToReceive and cTxLock; senders: xTasksWaitingToSend and cRxLock
  // hasData: the items have a size; without one the queue is a semaphore
  datatype State = State(
    length: nat,
    hasData: bool,
    messages: nat,
    receivers: Side,
    senders: Side,
    owner: Option<Tid>,           // the task that has suspended the scheduler to use the queue
    pc: map<Tid, Pc>)

  // ---------------------------------------------------------------------
  // Steps
  // ---------------------------------------------------------------------

  datatype Step =
    | Call(t: Tid, kind: Kind)
    | Attempt(t: Tid, mayWait: bool, overwrite: bool)
    | SuspendAll(t: Tid)
    | LockQueue(t: Tid)
    | Check(t: Tid, timedOut: bool)
    | PlaceOnList(t: Tid, at: nat)
    | UnlockFirst(t: Tid)
    | UnlockSecond(t: Tid)
    | ResumeAll(t: Tid)
    | GiveUp(t: Tid)
    | Expire(t: Tid)
    | InterruptSend(overwrite: bool)
    | InterruptReceive
    | CreateTask(t: Tid)
    | Reset(t: Tid)

  function Tasks(s: State): set<Tid> {
    s.pc.Keys
  }

  predicate OnList(s: State, t: Tid) {
    t in s.receivers.waiting || t in s.senders.waiting
  }

  // A task runs only while the scheduler is not suspended by another, and not
  // while it is on a list.
  predicate Runs(s: State, t: Tid) {
    t in s.pc && s.owner.None? && !OnList(s, t)
  }

  predicate Owns(s: State, t: Tid) {
    t in s.pc && s.owner == Some(t)
  }

  predicate Enabled(s: State, step: Step) {
    match step
    case Call(t, _) => Runs(s, t) && s.pc[t].Outside?
    case Attempt(t, _, overwrite) => Runs(s, t) && s.pc[t].Try? && (overwrite ==> s.length == 1)
    case SuspendAll(t) => Runs(s, t) && s.pc[t].Refused?
    case LockQueue(t) => Owns(s, t) && s.pc[t].Suspended?
    case Check(t, _) => Owns(s, t) && s.pc[t].Locked?
    case PlaceOnList(t, at) =>
      Owns(s, t) && s.pc[t].FoundNothing? && !OnList(s, t)
      && at <= |(if s.pc[t].kind.Sending? then s.senders else s.receivers).waiting|
    case UnlockFirst(t) => Owns(s, t) && s.pc[t].UnlockTx?
    case UnlockSecond(t) => Owns(s, t) && s.pc[t].UnlockRx?
    case ResumeAll(t) => Owns(s, t) && s.pc[t].Resume?
    case GiveUp(t) => Runs(s, t) && s.pc[t].LastLook?
    case Expire(t) => s.owner.None? && OnList(s, t)
    case InterruptSend(overwrite) => s.messages < s.length || (overwrite && s.length == 1)
    case InterruptReceive => s.messages > 0
    case CreateTask(t) => s.owner.None? && t !in s.pc
    case Reset(t) => Runs(s, t) && s.pc[t].Outside? && MayReset(s)
  }

  // A reset frees the whole queue but wakes one sender only: no more may wait, unless
  // enough have been woken before.
  predicate MayReset(s: State) {
    |s.senders.waiting| <= 1 || s.length <= |s.senders.woken| + 1
  }

  // xQueueGenericReset of a queue in use
  function ResetOn(s: State): State {
    s.(messages := 0, receivers := s.receivers.(lock := UNLOCKED), senders := WakeHead(s.senders.(lock := UNLOCKED)))
  }

  function Removed(side: Side, t: Tid): Side {
    if t in side.waiting then side.(waiting := DropAt(side.waiting, IndexOf(side.waiting, t))) else side
  }

  // After an item has gone in: an overwritten item has made room for itself, unless
  // there is no data to overwrite; then the count goes past the length.
  function MoreMessages(s: State): nat {
    if s.messages < s.length || !s.hasData then s.messages + 1 else s.messages
  }

  // The places that a sender may take
  function Free(length: nat, messages: nat): nat {
    if messages < length then length - messages else 0
  }

  // The critical section at the head of the loops of xQueueGenericSend,
  // xQueueReceive and xQueuePeek
  function AttemptOn(s: State, t: Tid, mayWait: bool, overwrite: bool): State
    requires t in s.pc && s.pc[t].Try?
  {
    var kind := s.pc[t].kind;
    var s1 := s.(receivers := Rerun(s.receivers, t), senders := Rerun(s.senders, t));
    if kind.Sending? && (s.messages < s.length || overwrite) then
      s1.(messages := MoreMessages(s), receivers := WakeHead(s1.receivers), pc := s.pc[t := Outside])
    else if kind.Receiving? && s.messages > 0 then
      s1.(messages := s.messages - 1, senders := WakeHead(s1.senders), pc := s.pc[t := Outside])
    else if kind.Peeking? && s.messages > 0 then
      s1.(receivers := WakeHead(s1.receivers), pc := s.pc[t := Outside])
    else s1.(pc := s.pc[t := if mayWait then Refused(kind) else Outside])
  }

  // prvIsQueueFull or prvIsQueueEmpty
  predicate NothingThere(s: State, kind: Kind) {
    if kind.Sending? then s.messages == s.length else s.messages == 0
  }

  function Do(s: State, step: Step): State
    requires Enabled(s, step)
  {
    match step
    case Call(t, kind) => s.(pc := s.pc[t := Try(kind)])
    case Attempt(t, mayWait, overwrite) => AttemptOn(s, t, mayWait, overwrite)
    case SuspendAll(t) => s.(owner := Some(t), pc := s.pc[t := Suspended(s.pc[t].kind)])
    case LockQueue(t) =>
      s.(receivers := Lock(s.receivers), senders := Lock(s.senders), pc := s.pc[t := Locked(s.pc[t].kind)])
    case Check(t, timedOut) =>
      var kind := s.pc[t].kind;
      s.(pc := s.pc[t := if timedOut then UnlockTx(kind, TimedOut)
                         else if NothingThere(s, kind) then FoundNothing(kind)
                         else UnlockTx(kind, TryAgain)])
    case PlaceOnList(t, at) =>
      var kind := s.pc[t].kind;
      var s1 := s.(pc := s.pc[t := UnlockTx(kind, Wait)]);
      if kind.Sending? then s1.(senders := s.senders.(waiting := InsertAt(s.senders.waiting, at, t)))
      else s1.(receivers := s.receivers.(waiting := InsertAt(s.receivers.waiting, at, t)))
    case UnlockFirst(t) => s.(receivers := Unlock(s.receivers), pc := s.pc[t := UnlockRx(s.pc[t].kind, s.pc[t].next)])
    case UnlockSecond(t) => s.(senders := Unlock(s.senders), pc := s.pc[t := Resume(s.pc[t].kind, s.pc[t].next)])
    case ResumeAll(t) =>
      var kind := s.pc[t].kind;
      s.(owner := None,
         pc := s.pc[t := if !s.pc[t].next.TimedOut? then Try(kind)
                         else if kind.Sending? then Outside
                         else LastLook(kind)])
    case GiveUp(t) => s.(pc := s.pc[t := if s.messages == 0 then Outside else Try(s.pc[t].kind)])
    case Expire(t) => s.(receivers := Removed(s.receivers, t), senders := Removed(s.senders, t))
    case InterruptSend(overwrite) =>
      s.(messages := MoreMessages(s), receivers := Event(s.receivers, |Tasks(s)|))
    case InterruptReceive => s.(messages := s.messages - 1, senders := Event(s.senders, |Tasks(s)|))
    case CreateTask(t) => s.(pc := s.pc[t := Outside])
    case Reset(_) => ResetOn(s)
  }

  ghost predicate Run(s: State, steps: seq<Step>)
    decreases |steps|
  {
    steps == [] || (Enabled(s, steps[0]) && Run(Do(s, steps[0]), steps[1..]))
  }

  ghost function Final(s: State, steps: seq<Step>): State
    requires Run(s, steps)
    decreases |steps|
  {
    if steps == [] then s else Final(Do(s, steps[0]), steps[1..])
  }

  function Start(length: nat, hasData: bool): State {
    State(length, hasData, 0, Side([], {}, UNLOCKED, 0), Side([], {}, UNLOCKED, 0), None, map[])
  }

  // ---------------------------------------------------------------------
  // The invariant
  // ---------------------------------------------------------------------

  // A task on a list, or woken and yet to run, is at the end of its wait.
  predicate Parked(pc: Pc) {
    pc.Try? || ((pc.UnlockTx? || pc.UnlockRx? || pc.Resume?) && pc.next.Wait?)
  }

  ghost predicate WaitersParked(pc: map<Tid, Pc>, receivers: Side, senders: Side) {
    && (forall t :: t in receivers.waiting || t in receivers.woken ==> t in pc && Parked(pc[t]) && !pc[t].kind.Sending?)
    && (forall t :: t in senders.waiting || t in senders.woken ==> t in pc && Parked(pc[t]) && pc[t].kind.Sending?)
  }

  predicate Inside(pc: Pc) {
    pc.Suspended? || pc.Locked? || pc.FoundNothing? || pc.UnlockTx? || pc.UnlockRx? || pc.Resume?
  }

  // Only the owner is inside, and where it is says which sides are locked.
  ghost predicate OwnerInside(pc: map<Tid, Pc>, owner: Option<Tid>) {
    && (forall t :: t in pc && Inside(pc[t]) ==> owner == Some(t))
    && (owner.Some? ==> owner.value in pc && Inside(pc[owner.value]))
  }

  predicate TxLocked(pc: map<Tid, Pc>, owner: Option<Tid>) {
    owner.Some? && owner.value in pc
    && (pc[owner.value].Locked? || pc[owner.value].FoundNothing? || pc[owner.value].UnlockTx?)
  }

  predicate RxLocked(pc: map<Tid, Pc>, owner: Option<Tid>) {
    TxLocked(pc, owner) || (owner.Some? && owner.value in pc && pc[owner.value].UnlockRx?)
  }

  predicate AboutToWait(pc: map<Tid, Pc>, owner: Option<Tid>, sending: bool) {
    owner.Some? && owner.value in pc && pc[owner.value].FoundNothing? && pc[owner.value].kind.Sending? == sending
  }

  ghost predicate Inv(s: State) {
    && (s.hasData ==> s.messages <= s.length)
    && SideOk(s.receivers, Tasks(s)) && SideOk(s.senders, Tasks(s))
    && WaitersParked(s.pc, s.receivers, s.senders) && OwnerInside(s.pc, s.owner)
    && (s.receivers.lock != UNLOCKED <==> TxLocked(s.pc, s.owner))
    && (s.senders.lock != UNLOCKED <==> RxLocked(s.pc, s.owner))
    && Promised(s.receivers, s.messages, AboutToWait(s.pc, s.owner, false), Tasks(s))
    && Promised(s.senders, Free(s.length, s.messages), AboutToWait(s.pc, s.owner, true), Tasks(s))
  }

  // ---------------------------------------------------------------------
  // Every step keeps it
  // ---------------------------------------------------------------------

  // The task t moves on to another point of its call.
  lemma KeysSame(pc: map<Tid, Pc>, t: Tid, p: Pc)
    requires t in pc
    ensures pc[t := p].Keys == pc.Keys
  {
  }

  // A task that is not parked, at either end, is on no list and in no woken set.
  lemma MovedFree(pc: map<Tid, Pc>, receivers: Side, senders: Side, t: Tid, p: Pc)
    requires WaitersParked(pc, receivers, senders) && t in pc && !Parked(pc[t])
    ensures WaitersParked(pc[t := p], receivers, senders)
    ensures t !in receivers.waiting && t !in receivers.woken && t !in senders.waiting && t !in senders.woken
  {
  }

  // A parked task may move on to another parked point of the same kind.
  lemma MovedParked(pc: map<Tid, Pc>, receivers: Side, senders: Side, t: Tid, p: Pc)
    requires WaitersParked(pc, receivers, senders) && t in pc && Parked(p) && !pc[t].Outside? && p.kind == pc[t].kind
    ensures WaitersParked(pc[t := p], receivers, senders)
  {
  }

  lemma MovedInside(pc: map<Tid, Pc>, owner: Option<Tid>, t: Tid, p: Pc)
    requires OwnerInside(pc, owner) && t in pc
    ensures owner == Some(t) && Inside(p) ==> OwnerInside(pc[t := p], owner)
    ensures owner.None? && !Inside(p) ==> OwnerInside(pc[t := p], owner)
    ensures owner.None? && Inside(p) ==> OwnerInside(pc[t := p], Some(t))
    ensures owner == Some(t) && !Inside(p) ==> OwnerInside(pc[t := p], None)
  {
  }

  lemma CallKeepsInv(s: State, t: Tid, kind: Kind)
    requires Inv(s) && Enabled(s, Call(t, kind))
    ensures Inv(Do(s, Call(t, kind)))
  {
    hide SideOk, Promised, WaitersParked, OwnerInside, Inside, Parked;
    assert !Parked(s.pc[t]) && !Inside(Try(kind)) by { NotInside(Try(kind)); NotInside(s.pc[t]); }
    KeysSame(s.pc, t, Try(kind));
    MovedFree(s.pc, s.receivers, s.senders, t, Try(kind));
    MovedInside(s.pc, s.owner, t, Try(kind));
  }

  lemma NotInside(p: Pc)
    ensures p.Outside? || p.Try? || p.Refused? || p.LastLook? ==> !Inside(p)
    ensures p.Outside? || p.Refused? || p.Suspended? || p.Locked? || p.FoundNothing? || p.LastLook? ==> !Parked(p)
    ensures p.Suspended? || p.Locked? || p.FoundNothing? || p.UnlockTx? || p.UnlockRx? || p.Resume? ==> Inside(p)
  {
  }

  // Steps in which only the task's own position changes
  lemma PositionKeepsInv(s: State, step: Step)
    requires Inv(s) && Enabled(s, step)
    requires step.SuspendAll? || step.Check? || step.GiveUp?
    ensures Inv(Do(s, step))
  {
    hide SideOk, Promised, WaitersParked, OwnerInside, Inside, Parked;
    var t := step.t;
    var p := Do(s, step).pc[t];
    NotInside(s.pc[t]);
    NotInside(p);
    KeysSame(s.pc, t, p);
    MovedFree(s.pc, s.receivers, s.senders, t, p);
    MovedInside(s.pc, s.owner, t, p);
    NothingIsPromised(s.receivers, Tasks(s));
    NothingIsPromised(s.senders, Tasks(s));
    PromisedEarlier(s.receivers, s.messages, AboutToWait(s.pc, s.owner, false), Tasks(s));
    PromisedEarlier(s.senders, Free(s.length, s.messages), AboutToWait(s.pc, s.owner, true), Tasks(s));
  }

  lemma NothingIsPromised(side: Side, tasks: set<Tid>)
    ensures forall about :: Promised(side, 0, about, tasks)
  {
  }

  lemma PromisedEarlier(side: Side, available: nat, about: bool, tasks: set<Tid>)
    requires Promised(side, available, about, tasks)
    ensures Promised(side, available, false, tasks)
  {
  }

  lemma LockKeepsInv(s: State, t: Tid)
    requires Inv(s) && Enabled(s, LockQueue(t))
    ensures Inv(Do(s, LockQueue(t)))
  {
    hide WaitersParked, OwnerInside, Inside, Parked;
    var p := Locked(s.pc[t].kind);
    NotInside(s.pc[t]);
    NotInside(p);
    KeysSame(s.pc, t, p);
    MovedFree(s.pc, s.receivers, s.senders, t, p);
    MovedInside(s.pc, s.owner, t, p);
    AmongParked(s.pc[t := p], s.receivers, s.senders, Lock(s.receivers), Lock(s.senders));
  }

  lemma AmongParked(pc: map<Tid, Pc>, receivers: Side, senders: Side, receivers': Side, senders': Side)
    requires WaitersParked(pc, receivers, senders) && Among(receivers', receivers) && Among(senders', senders)
    ensures WaitersParked(pc, receivers', senders')
  {
  }

  lemma PlacedSide(side: Side, available: nat, tasks: set<Tid>, at: nat, t: Tid)
    requires SideOk(side, tasks) && Promised(side, available, true, tasks)
    requires t in tasks && t !in side.waiting && t !in side.woken && at <= |side.waiting|
    ensures var side' := side.(waiting := InsertAt(side.waiting, at, t));
            && SideOk(side', tasks) && Promised(side', available, false, tasks)
            && forall u :: u in side'.waiting <==> u in side.waiting || u == t
  {
    InsertAtDistinct(side.waiting, at, t);
  }

  lemma PlaceKeepsInv(s: State, t: Tid, at: nat)
    requires Inv(s) && Enabled(s, PlaceOnList(t, at))
    ensures Inv(Do(s, PlaceOnList(t, at)))
  {
    hide SideOk, Promised, OwnerInside, Inside;
    var kind := s.pc[t].kind;
    var p := UnlockTx(kind, Wait);
    NotInside(p);
    KeysSame(s.pc, t, p);
    MovedInside(s.pc, s.owner, t, p);
    if kind.Sending? {
      PlacedSide(s.senders, Free(s.length, s.messages), Tasks(s), at, t);
    } else {
      PlacedSide(s.receivers, s.messages, Tasks(s), at, t);
    }
  }

  lemma UnlockFirstKeepsInv(s: State, t: Tid)
    requires Inv(s) && Enabled(s, UnlockFirst(t))
    ensures Inv(Do(s, UnlockFirst(t)))
  {
    hide SideOk, Promised, WaitersParked, OwnerInside, Inside, Unlock, Among;
    var p := UnlockRx(s.pc[t].kind, s.pc[t].next);
    NotInside(p);
    KeysSame(s.pc, t, p);
    MovedInside(s.pc, s.owner, t, p);
    MovedNext(s.pc, s.receivers, s.senders, t, p);
    UnlockKeeps(s.receivers, s.messages, Tasks(s));
    StillAmong(s.receivers, 0, t);
    AmongItself(s.senders);
    AmongParked(s.pc[t := p], s.receivers, s.senders, Unlock(s.receivers), s.senders);
  }

  lemma AmongItself(side: Side)
    ensures Among(side, side)
  {
  }

  lemma MovedNext(pc: map<Tid, Pc>, receivers: Side, senders: Side, t: Tid, p: Pc)
    requires WaitersParked(pc, receivers, senders) && t in pc && !p.Outside? && !pc[t].Outside? && p.kind == pc[t].kind
    requires Parked(pc[t]) ==> Parked(p)
    ensures WaitersParked(pc[t := p], receivers, senders)
  {
  }

  lemma UnlockSecondKeepsInv(s: State, t: Tid)
    requires Inv(s) && Enabled(s, UnlockSecond(t))
    ensures Inv(Do(s, UnlockSecond(t)))
  {
    hide SideOk, Promised, WaitersParked, OwnerInside, Inside, Unlock, Among;
    var p := Resume(s.pc[t].kind, s.pc[t].next);
    NotInside(p);
    KeysSame(s.pc, t, p);
    MovedInside(s.pc, s.owner, t, p);
    MovedNext(s.pc, s.receivers, s.senders, t, p);
    UnlockKeeps(s.senders, Free(s.length, s.messages), Tasks(s));
    StillAmong(s.senders, 0, t);
    AmongItself(s.receivers);
    AmongParked(s.pc[t := p], s.receivers, s.senders, s.receivers, Unlock(s.senders));
  }

  lemma ResumeKeepsInv(s: State, t: Tid)
    requires Inv(s) && Enabled(s, ResumeAll(t))
    ensures Inv(Do(s, ResumeAll(t)))
  {
    hide SideOk, Promised, WaitersParked, OwnerInside, Inside;
    var p := Do(s, ResumeAll(t)).pc[t];
    NotInside(p);
    KeysSame(s.pc, t, p);
    MovedInside(s.pc, s.owner, t, p);
    if s.pc[t].next.TimedOut? {
      MovedFree(s.pc, s.receivers, s.senders, t, p);
    } else {
      MovedParked(s.pc, s.receivers, s.senders, t, p);
    }
  }

  lemma RemovedSide(side: Side, available: nat, tasks: set<Tid>, t: Tid)
    requires SideOk(side, tasks) && Promised(side, available, false, tasks)
    ensures SideOk(Removed(side, t), tasks) && Promised(Removed(side, t), available, false, tasks)
    ensures Among(Removed(side, t), side)
    ensures Removed(side, t).lock == side.lock
  {
    if t in side.waiting {
      DropAtDistinct(side.waiting, IndexOf(side.waiting, t));
    }
  }

  lemma ExpireKeepsInv(s: State, t: Tid)
    requires Inv(s) && Enabled(s, Expire(t))
    ensures Inv(Do(s, Expire(t)))
  {
    hide SideOk, Promised, WaitersParked, OwnerInside, Among, Removed;
    RemovedSide(s.receivers, s.messages, Tasks(s), t);
    RemovedSide(s.senders, Free(s.length, s.messages), Tasks(s), t);
    AmongParked(s.pc, s.receivers, s.senders, Removed(s.receivers, t), Removed(s.senders, t));
  }

  lemma InterruptSendKeepsInv(s: State, overwrite: bool)
    requires Inv(s) && Enabled(s, InterruptSend(overwrite))
    ensures Inv(Do(s, InterruptSend(overwrite)))
  {
    hide SideOk, Promised, WaitersParked, OwnerInside, Among, Event;
    var about, messages := AboutToWait(s.pc, s.owner, false), MoreMessages(s);
    EventKeeps(s.receivers, s.messages, about, Tasks(s));
    PromisedLess(Event(s.receivers, |Tasks(s)|), s.messages + 1, about, Tasks(s), messages);
    PromisedLess(s.senders, Free(s.length, s.messages), AboutToWait(s.pc, s.owner, true), Tasks(s),
                 Free(s.length, messages));
    StillAmong(s.receivers, |Tasks(s)|, 0);
    AmongItself(s.senders);
    AmongParked(s.pc, s.receivers, s.senders, Event(s.receivers, |Tasks(s)|), s.senders);
  }

  lemma InterruptReceiveKeepsInv(s: State)
    requires Inv(s) && Enabled(s, InterruptReceive)
    ensures Inv(Do(s, InterruptReceive))
  {
    hide SideOk, Promised, WaitersParked, OwnerInside, Among, Event;
    var about := AboutToWait(s.pc, s.owner, true);
    EventKeeps(s.senders, Free(s.length, s.messages), about, Tasks(s));
    PromisedLess(Event(s.senders, |Tasks(s)|), Free(s.length, s.messages) + 1, about, Tasks(s),
                 Free(s.length, s.messages - 1));
    PromisedLess(s.receivers, s.messages, AboutToWait(s.pc, s.owner, false), Tasks(s), s.messages - 1);
    StillAmong(s.senders, |Tasks(s)|, 0);
    AmongItself(s.receivers);
    AmongParked(s.pc, s.receivers, s.senders, s.receivers, Event(s.senders, |Tasks(s)|));
  }

  lemma MoreTasks(side: Side, available: nat, tasks: set<Tid>, t: Tid)
    requires SideOk(side, tasks) && Promised(side, available, false, tasks) && side.lock == UNLOCKED
    ensures SideOk(side, tasks + {t}) && Promised(side, available, false, tasks + {t})
  {
  }

  lemma CreateKeepsInv(s: State, t: Tid)
    requires Inv(s) && Enabled(s, CreateTask(t))
    ensures Inv(Do(s, CreateTask(t)))
  {
    hide SideOk, Promised;
    MoreTasks(s.receivers, s.messages, Tasks(s), t);
    MoreTasks(s.senders, Free(s.length, s.messages), Tasks(s), t);
    assert s.pc[t := Outside].Keys == s.pc.Keys + {t};
  }

  // A reset keeps the invariant, and so loses no wake-up, if and only if it may.
  lemma ResetExactly(s: State)
    requires Inv(s) && s.owner.None?
    ensures Inv(ResetOn(s)) <==> MayReset(s)
    ensures !MayReset(s) ==> ResetOn(s).senders.waiting != [] && Free(s.length, 0) > |ResetOn(s).senders.woken|
  {
    hide WaitersParked, OwnerInside, Among;
    StillAmong(s.senders, 0, 0);
    AmongItself(s.receivers);
    AmongParked(s.pc, s.receivers, s.senders, s.receivers, WakeHead(s.senders));
    WakeHeadKeeps(s.senders, Tasks(s));
    assert s.senders.(lock := UNLOCKED) == s.senders && s.receivers.(lock := UNLOCKED) == s.receivers;
  }

  // ---- a task's critical section ----

  // The task has left the woken sets, and may move on to where nothing is asked of it.
  lemma RerunParked(pc: map<Tid, Pc>, receivers: Side, senders: Side, t: Tid, p: Pc)
    requires WaitersParked(pc, receivers, senders) && t in pc && t !in receivers.waiting && t !in senders.waiting
    ensures WaitersParked(pc[t := p], Rerun(receivers, t), Rerun(senders, t))
    ensures pc[t].Try? && pc[t].kind.Sending? ==> t !in receivers.woken
    ensures pc[t].Try? && !pc[t].kind.Sending? ==> t !in senders.woken
  {
  }

  // What a task's critical section does to the side it takes from, and to the
  // side it gives to, on an unlocked queue
  lemma Takes(side: Side, available: nat, tasks: set<Tid>, t: Tid)
    requires SideOk(side, tasks) && Promised(side, available, false, tasks) && side.lock == UNLOCKED
    ensures SideOk(Rerun(side, t), tasks) && Rerun(side, t).lock == UNLOCKED
    ensures Promised(Rerun(side, t), if available > 0 then available - 1 else 0, false, tasks)
  {
    RerunKeeps(side, available, tasks, t);
  }

  lemma Gives(side: Side, available: nat, tasks: set<Tid>, t: Tid)
    requires SideOk(side, tasks) && Promised(side, available, false, tasks) && side.lock == UNLOCKED && t !in side.woken
    ensures SideOk(Rerun(side, t), tasks) && Promised(Rerun(side, t), available, false, tasks)
    ensures Rerun(side, t).lock == UNLOCKED
    ensures var side' := WakeHead(Rerun(side, t));
            SideOk(side', tasks) && Promised(side', available + 1, false, tasks) && side'.lock == UNLOCKED
  {
    RerunKeeps(side, available, tasks, t);
    EventKeeps(Rerun(side, t), available, false, tasks);
  }

  lemma Peeks(side: Side, available: nat, tasks: set<Tid>, t: Tid)
    requires SideOk(side, tasks) && Promised(side, available, false, tasks) && side.lock == UNLOCKED
    ensures var side' := WakeHead(Rerun(side, t));
            SideOk(side', tasks) && Promised(side', available, false, tasks) && side'.lock == UNLOCKED
  {
    RerunKeeps(side, available, tasks, t);
  }

  lemma AttemptSides(s: State, t: Tid, mayWait: bool, overwrite: bool)
    requires Inv(s) && Enabled(s, Attempt(t, mayWait, overwrite))
    ensures var s1 := AttemptOn(s, t, mayWait, overwrite);
            && (s.hasData ==> s1.messages <= s1.length) && s1.length == s.length && s1.hasData == s.hasData
            && SideOk(s1.receivers, Tasks(s)) && Promised(s1.receivers, s1.messages, false, Tasks(s))
            && s1.receivers.lock == UNLOCKED
            && SideOk(s1.senders, Tasks(s)) && Promised(s1.senders, Free(s1.length, s1.messages), false, Tasks(s))
            && s1.senders.lock == UNLOCKED
  {
    hide SideOk, Promised, WaitersParked, OwnerInside, Rerun, WakeHead;
    var free := Free(s.length, s.messages);
    RerunParked(s.pc, s.receivers, s.senders, t, Outside);
    if s.pc[t].kind.Sending? {
      Gives(s.receivers, s.messages, Tasks(s), t);
      Takes(s.senders, free, Tasks(s), t);
      PromisedLess(WakeHead(Rerun(s.receivers, t)), s.messages + 1, false, Tasks(s), MoreMessages(s));
    } else {
      Gives(s.senders, free, Tasks(s), t);
      Takes(s.receivers, s.messages, Tasks(s), t);
      if s.messages > 0 {
        PromisedLess(WakeHead(Rerun(s.senders, t)), free + 1, false, Tasks(s), Free(s.length, s.messages - 1));
      }
      Peeks(s.receivers, s.messages, Tasks(s), t);
    }
  }

  lemma AttemptKeepsInv(s: State, t: Tid, mayWait: bool, overwrite: bool)
    requires Inv(s) && Enabled(s, Attempt(t, mayWait, overwrite))
    ensures Inv(Do(s, Attempt(t, mayWait, overwrite)))
  {
    hide SideOk, Promised, WaitersParked, OwnerInside, Rerun, WakeHead, Among, Inside;
    var s1 := AttemptOn(s, t, mayWait, overwrite);
    var p := s1.pc[t];
    var r, d := Rerun(s.receivers, t), Rerun(s.senders, t);
    AttemptSides(s, t, mayWait, overwrite);
    NotInside(p);
    KeysSame(s.pc, t, p);
    MovedInside(s.pc, s.owner, t, p);
    RerunParked(s.pc, s.receivers, s.senders, t, p);
    StillAmong(r, 0, t);
    StillAmong(d, 0, t);
    AmongItself(r);
    AmongItself(d);
    AmongParked(s1.pc, r, d, s1.receivers, s1.senders);
  }

  lemma StepKeepsInv(s: State, step: Step)
    requires Inv(s) && Enabled(s, step)
    ensures Inv(Do(s, step))
  {
    hide Inv;
    match step
    case Call(t, kind) => CallKeepsInv(s, t, kind);
    case Attempt(t, mayWait, overwrite) => AttemptKeepsInv(s, t, mayWait, overwrite);
    case LockQueue(t) => LockKeepsInv(s, t);
    case PlaceOnList(t, at) => PlaceKeepsInv(s, t, at);
    case UnlockFirst(t) => UnlockFirstKeepsInv(s, t);
    case UnlockSecond(t) => UnlockSecondKeepsInv(s, t);
    case ResumeAll(t) => ResumeKeepsInv(s, t);
    case Expire(t) => ExpireKeepsInv(s, t);
    case InterruptSend(overwrite) => InterruptSendKeepsInv(s, overwrite);
    case InterruptReceive => InterruptReceiveKeepsInv(s);
    case CreateTask(t) => CreateKeepsInv(s, t);
    case Reset(_) => ResetExactly(s);
    case _ => PositionKeepsInv(s, step);
  }

  lemma {:induction false} RunKeepsInv(s: State, steps: seq<Step>)
    requires Inv(s) && Run(s, steps)
    ensures Inv(Final(s, steps))
    decreases |steps|
  {
    hide Inv;
    if steps != [] {
      StepKeepsInv(s, steps[0]);
      RunKeepsInv(Do(s, steps[0]), steps[1..]);
    }
  }

  // What a call comes to: its critical section succeeds, and the call is over, exactly
  // if there is something to be had, and then one item has come, gone or been looked
  // at; if not, it returns at once or goes on to wait.
  lemma AttemptExactly(s: State, t: Tid, mayWait: bool, overwrite: bool)
    requires Inv(s) && Enabled(s, Attempt(t, mayWait, overwrite))
    ensures var s1, kind := Do(s, Attempt(t, mayWait, overwrite)), s.pc[t].kind;
            var there := if kind.Sending? then Free(s.length, s.messages) > 0 || overwrite else s.messages > 0;
            && (there ==> s1.pc[t].Outside?)
            && (!there ==> s1.messages == s.messages && s1.pc[t] == if mayWait then Refused(kind) else Outside)
            && (there && kind.Receiving? ==> s1.messages == s.messages - 1)
            && (there && kind.Peeking? ==> s1.messages == s.messages)
            && (there && kind.Sending? ==>
                  s1.messages
                  == if overwrite && s.hasData && s.messages == s.length then s.messages else s.messages + 1)
  {
    hide SideOk, Promised, WaitersParked, OwnerInside;
  }

  // A receiver whose time is up fails only on an empty queue; else it tries again.
  lemma GivesUpOnNothing(s: State, t: Tid)
    requires Enabled(s, GiveUp(t))
    ensures Do(s, GiveUp(t)).pc[t].Outside? <==> s.messages == 0
    ensures s.messages > 0 && Inv(s) ==>
              Enabled(Do(s, GiveUp(t)), Attempt(t, false, false))
              && Do(Do(s, GiveUp(t)), Attempt(t, false, false)).pc[t].Outside?
  {
    hide SideOk, Promised, WaitersParked, OwnerInside;
  }

  // No wake-up is lost: whatever tasks and interrupts have done, in any order,
  // whenever the queue is not locked, a task is left waiting to receive only if
  // every item is accounted for by a receiver already woken that has yet to run;
  // and a task is left waiting to send only if every free place is.
  lemma NoLostWakeUp(length: nat, hasData: bool, steps: seq<Step>)
    requires Run(Start(length, hasData), steps)
    ensures var s := Final(Start(length, hasData), steps);
            && (s.receivers.lock == UNLOCKED && s.receivers.waiting != [] ==> s.messages <= |s.receivers.woken|)
            && (s.senders.lock == UNLOCKED && s.senders.waiting != [] ==>
                  Free(s.length, s.messages) <= |s.senders.woken|)
            && (s.owner.None? ==> s.receivers.lock == UNLOCKED && s.senders.lock == UNLOCKED)
  {
    hide WaitersParked, OwnerInside;
    StartInv(length, hasData);
    RunKeepsInv(Start(length, hasData), steps);
  }

  // ... where a woken task is on no list and, once it runs, runs its critical
  // section before anything else.
  lemma WokenWillRun(length: nat, hasData: bool, steps: seq<Step>, t: Tid)
    requires Run(Start(length, hasData), steps)
    ensures var s := Final(Start(length, hasData), steps);
            t in s.receivers.woken || t in s.senders.woken ==>
              && t in s.pc && !OnList(s, t) && Parked(s.pc[t])
              && (s.owner.None? ==> s.pc[t] == Try(s.pc[t].kind) && Enabled(s, Attempt(t, true, false)))
              && (t in s.senders.woken <==> s.pc[t].kind.Sending?)
  {
    hide Promised;
    StartInv(length, hasData);
    RunKeepsInv(Start(length, hasData), steps);
  }

  lemma StartInv(length: nat, hasData: bool)
    ensures Inv(Start(length, hasData))
  {
  }

  // In every run, a capped count wakes as many tasks as the events would.
  lemma CappingChangesNothing(length: nat, hasData: bool, steps: seq<Step>, t: Tid)
    requires Run(Start(length, hasData), steps)
    ensures var s := Final(Start(length, hasData), steps);
            && (Enabled(s, UnlockFirst(t)) ==>
                  |Do(s, UnlockFirst(t)).receivers.woken|
                  == |s.receivers.woken| + Min(s.receivers.events, |s.receivers.waiting|))
            && (Enabled(s, UnlockSecond(t)) ==>
                  |Do(s, UnlockSecond(t)).senders.woken|
                  == |s.senders.woken| + Min(s.senders.events, |s.senders.waiting|))
  {
    var s := Final(Start(length, hasData), steps);
    hide WaitersParked, OwnerInside, Promised, SideOk, Unlock, Min;
    StartInv(length, hasData);
    RunKeepsInv(Start(length, hasData), steps);
    if Enabled(s, UnlockFirst(t)) {
      UnlockWakesOnePerEvent(s.receivers, Tasks(s));
    }
    if Enabled(s, UnlockSecond(t)) {
      UnlockWakesOnePerEvent(s.senders, Tasks(s));
    }
  }

  // ---------------------------------------------------------------------
  // The assertion on the lock counts
  // ---------------------------------------------------------------------

  // A count that is about to grow must not be the largest signed byte.
  predicate CountMayGrow(side: Side, tasks: nat) {
    side.lock < tasks ==> side.lock != 127
  }

  // It holds in every run of at most 127 tasks ...
  lemma LockCountFits(length: nat, hasData: bool, steps: seq<Step>)
    requires Run(Start(length, hasData), steps) && |Tasks(Final(Start(length, hasData), steps))| <= 127
    ensures var s := Final(Start(length, hasData), steps);
            && CountMayGrow(s.receivers, |Tasks(s)|) && CountMayGrow(s.senders, |Tasks(s)|)
            && s.receivers.lock <= 127 && s.senders.lock <= 127
  {
    hide WaitersParked, OwnerInside, Promised;
    StartInv(length, hasData);
    RunKeepsInv(Start(length, hasData), steps);
  }

  ghost predicate Reachable(length: nat, hasData: bool, s: State) {
    exists steps :: Run(Start(length, hasData), steps) && Final(Start(length, hasData), steps) == s
  }

  lemma {:induction false} RunAppend(s: State, steps: seq<Step>, last: Step)
    requires Run(s, steps) && Enabled(Final(s, steps), last)
    ensures Run(s, steps + [last]) && Final(s, steps + [last]) == Do(Final(s, steps), last)
    decreases |steps|
  {
    hide Do, Enabled;
    if steps == [] {
      assert [] + [last] == [last];
    } else {
      RunAppend(Do(s, steps[0]), steps[1..], last);
      assert (steps + [last])[1..] == steps[1..] + [last];
    }
  }

  lemma ReachableStep(length: nat, hasData: bool, s: State, step: Step)
    requires Reachable(length, hasData, s) && Enabled(s, step)
    ensures Reachable(length, hasData, Do(s, step))
  {
    hide Do, Enabled;
    var steps :| Run(Start(length, hasData), steps) && Final(Start(length, hasData), steps) == s;
    RunAppend(Start(length, hasData), steps, step);
  }

  // ... and with 128 tasks it can fail: while one task has the queue locked,
  // interrupts post to it 127 times.
  function AllOutside(n: nat): map<Tid, Pc> {
    if n == 0 then map[] else AllOutside(n - 1)[n - 1 := Outside]
  }

  lemma {:induction false} OutsideCount(n: nat)
    ensures forall t: Tid :: t in AllOutside(n) <==> t < n
    ensures forall t :: t in AllOutside(n) ==> AllOutside(n)[t] == Outside
    ensures |AllOutside(n).Keys| == n
  {
    if n > 0 {
      OutsideCount(n - 1);
      forall t: Tid
        ensures t in AllOutside(n) <==> t < n
      {
        assert t in AllOutside(n - 1) <==> t < n - 1;
      }
      assert AllOutside(n).Keys == AllOutside(n - 1).Keys + {n - 1};
    }
  }

  lemma {:induction false} ManyTasks(n: nat)
    ensures Reachable(1, true, Start(1, true).(pc := AllOutside(n))) && |AllOutside(n).Keys| == n
  {
    hide Reachable;
    OutsideCount(n);
    if n == 0 {
      StartReachable(1, true);
    } else {
      ManyTasks(n - 1);
      OutsideCount(n - 1);
      ReachableStep(1, true, Start(1, true).(pc := AllOutside(n - 1)), CreateTask(n - 1));
    }
  }

  lemma StartReachable(length: nat, hasData: bool)
    ensures Reachable(length, hasData, Start(length, hasData))
  {
    assert Run(Start(length, hasData), []);
  }

  lemma {:induction false} ManyPosts(s: State, k: nat) returns (s': State)
    requires Reachable(1, true, s) && s.length == 1 && s.receivers.lock == 0 && k <= |Tasks(s)|
    ensures Reachable(1, true, s') && s'.length == 1 && s'.pc == s.pc && s'.receivers.lock == k
  {
    if k == 0 {
      s' := s;
    } else {
      var s0 := ManyPosts(s, k - 1);
      ReachableStep(1, true, s0, InterruptSend(true));
      s' := Do(s0, InterruptSend(true));
    }
  }

  lemma LockCountMayOverflow(n: nat) returns (s: State)
    requires n >= 128
    ensures Reachable(1, true, s) && |Tasks(s)| == n && Enabled(s, InterruptSend(true))
    ensures !CountMayGrow(s.receivers, |Tasks(s)|)
  {
    hide Reachable;
    ManyTasks(n);
    OutsideCount(n);
    var a := Start(1, true).(pc := AllOutside(n));
    ReachableStep(1, true, a, Call(0, Receiving));
    var b := Do(a, Call(0, Receiving));
    ReachableStep(1, true, b, Attempt(0, true, false));
    var c := Do(b, Attempt(0, true, false));
    ReachableStep(1, true, c, SuspendAll(0));
    var d := Do(c, SuspendAll(0));
    ReachableStep(1, true, d, LockQueue(0));
    var e := Do(d, LockQueue(0));
    assert Tasks(e) == Tasks(a);
    s := ManyPosts(e, 127);
  }

  // ---- a reset that loses a wake-up ----

  // A full queue that nobody is inside, with the given senders waiting
  ghost predicate Full(s: State, waiting: seq<Tid>) {
    && s.length == s.messages == 2 && s.owner.None? && s.hasData
    && s.senders == Side(waiting, {}, UNLOCKED, s.senders.events)
    && s.receivers == Side([], {}, UNLOCKED, s.receivers.events)
  }

  // One more task tries to send, finds no room, and waits.
  lemma SenderWaits(s: State, waiting: seq<Tid>, t: Tid) returns (s': State)
    requires Reachable(2, true, s) && Full(s, waiting) && t in s.pc && s.pc[t].Outside? && t !in waiting
    ensures Reachable(2, true, s') && Full(s', waiting + [t]) && forall u :: u in s.pc && u != t ==>
              u in s'.pc && s'.pc[u] == s.pc[u]
  {
    hide Reachable;
    ReachableStep(2, true, s, Call(t, Sending));
    var a := Do(s, Call(t, Sending));
    ReachableStep(2, true, a, Attempt(t, true, false));
    var b := Do(a, Attempt(t, true, false));
    ReachableStep(2, true, b, SuspendAll(t));
    var c := Do(b, SuspendAll(t));
    ReachableStep(2, true, c, LockQueue(t));
    var d := Do(c, LockQueue(t));
    ReachableStep(2, true, d, Check(t, false));
    var e := Do(d, Check(t, false));
    ReachableStep(2, true, e, PlaceOnList(t, |waiting|));
    var f := Do(e, PlaceOnList(t, |waiting|));
    assert InsertAt(waiting, |waiting|, t) == waiting + [t];
    ReachableStep(2, true, f, UnlockFirst(t));
    var g := Do(f, UnlockFirst(t));
    ReachableStep(2, true, g, UnlockSecond(t));
    var h := Do(g, UnlockSecond(t));
    ReachableStep(2, true, h, ResumeAll(t));
    s' := Do(h, ResumeAll(t));
  }

  // Three tasks, and a queue of two that interrupts have filled
  lemma QueueFilled() returns (s: State)
    ensures Reachable(2, true, s) && Full(s, []) && s.pc == map[0 := Outside, 1 := Outside, 2 := Outside]
  {
    hide Reachable;
    StartReachable(2, true);
    var a := Start(2, true);
    ReachableStep(2, true, a, CreateTask(0));
    var b := Do(a, CreateTask(0));
    ReachableStep(2, true, b, CreateTask(1));
    var c := Do(b, CreateTask(1));
    ReachableStep(2, true, c, CreateTask(2));
    var d := Do(c, CreateTask(2));
    ReachableStep(2, true, d, InterruptSend(false));
    var e := Do(d, InterruptSend(false));
    ReachableStep(2, true, e, InterruptSend(false));
    s := Do(e, InterruptSend(false));
  }

  // Two tasks wait to send to a full queue of two; a third resets it, and one of them
  // waits on beside a free place that nobody will tell it of.
  lemma ResetLosesWakeUp() returns (s: State)
    ensures Reachable(2, true, s) && Runs(s, 2) && s.pc[2].Outside? && !MayReset(s)
    ensures var s1 := ResetOn(s);
            s1.senders.waiting == [1] && s1.senders.woken == {0} && Free(s1.length, s1.messages) == 2
  {
    hide Reachable;
    var f := QueueFilled();
    var g := SenderWaits(f, [], 0);
    s := SenderWaits(g, [0], 1);
    assert [] + [0] == [0] && [0] + [1] == [0, 1];
  }
}
