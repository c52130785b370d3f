/**
  The scheduler state of tasks.c: where every task is, the tick, and the nesting of scheduler
  suspension, during which interrupts only note what is to be done. One function for each
  kernel operation, as it acts inside its critical section.
*/
module Kernel {
  import opened Ticks
  import opened TimedLists
  import opened Boards
  import opened Placement
  import opened Priorities
  import DL = DelayedLists

  datatype State = State(
    place: Place,
    tick: nat,             // xTickCount
    overflows: nat,        // xNumOfOverflows
    nextUnblock: nat,      // xNextTaskUnblockTime
    locks: nat,            // uxSchedulerSuspended
    pended: nat,           // xPendedTicks
    running: Id,           // pxCurrentTCB
    idle: Id)              // the idle task, which never blocks

  function OnDelayed(p: Place): seq<Entry> {
    Items(p.state, Current(p))
  }

  // ---- Ticks ----

  /** xTaskIncrementTick with the scheduler running. */
  function TickOnce(k: State): State
    requires Sound(k.place) && k.tick < N
  {
    var tick := Plus(k.tick, 1);
    var place := if tick == 0 then k.place.(first := !k.place.first) else k.place;
    var next := if tick == 0 then DL.HeadTime(OnDelayed(place)) else k.nextUnblock;
    var after := if tick >= next then ExpireAll(place, tick) else place;
    k.(place := after, tick := tick,
       overflows := if tick == 0 then k.overflows + 1 else k.overflows,
       nextUnblock := if tick >= next then DL.HeadTime(OnDelayed(after)) else next)
  }

  lemma TickOnceKeeps(k: State)
    requires Sound(k.place) && k.tick < N
    ensures Sound(TickOnce(k).place) && TickOnce(k).tick < N && TickOnce(k).place.prio == k.place.prio
  {
    hide Sound, ExpireAll;
    var tick := Plus(k.tick, 1);
    FlipKeeps(k.place);
    ExpireAllTakesTheDue(if tick == 0 then k.place.(first := !k.place.first) else k.place, tick);
  }

  function ManyTicks(k: State, n: nat): State
    requires Sound(k.place) && k.tick < N
    decreases n
  {
    if n == 0 then k
    else
      TickOnceKeeps(k);
      ManyTicks(TickOnce(k), n - 1)
  }

  /** xTaskIncrementTick */
  function IncrementTick(k: State): State
    requires Sound(k.place) && k.tick < N
  {
    if k.locks == 0 then TickOnce(k) else k.(pended := k.pended + 1)
  }

  /** vTaskSuspendAll */
  function SuspendAll(k: State): State {
    k.(locks := k.locks + 1)
  }

  /** What xTaskResumeAll does before it catches up with the pended ticks. */
  function Unlock(k: State): State
    requires Sound(k.place)
  {
    MovePendingEmpties(k.place);
    var place := MovePending(k.place);
    k.(locks := 0, place := place,
       nextUnblock := if Items(k.place.event, Pending) == [] then k.nextUnblock else DL.HeadTime(OnDelayed(place)))
  }

  /** xTaskResumeAll */
  function ResumeAll(k: State): State
    requires Sound(k.place) && k.tick < N && k.locks > 0
  {
    if k.locks > 1 then k.(locks := k.locks - 1)
    else
      MovePendingEmpties(k.place);
      ManyTicks(Unlock(k), k.pended).(pended := 0)
  }

  // ---- Suspension is transparent to time ----

  function Interrupts(k: State, n: nat): State
    requires Sound(k.place) && k.tick < N
    decreases n
  {
    if n == 0 then k
    else
      TickOnceKeeps(k);
      Interrupts(IncrementTick(k), n - 1)
  }

  lemma {:induction false} SuspendedInterruptsPend(k: State, n: nat)
    requires Sound(k.place) && k.tick < N && k.locks > 0
    ensures Interrupts(k, n) == k.(pended := k.pended + n)
    decreases n
  {
    hide Sound, TickOnce;
    if n > 0 {
      SuspendedInterruptsPend(k.(pended := k.pended + 1), n - 1);
    }
  }

  lemma {:induction false} RunningInterruptsTick(k: State, n: nat)
    requires Sound(k.place) && k.tick < N && k.locks == 0
    ensures Interrupts(k, n) == ManyTicks(k, n)
    decreases n
  {
    hide Sound, ExpireAll;
    if n > 0 {
      TickOnceKeeps(k);
      RunningInterruptsTick(TickOnce(k), n - 1);
    }
  }

  lemma {:induction false} TicksAddUp(k: State, m: nat, n: nat)
    requires Sound(k.place) && k.tick < N
    ensures Sound(ManyTicks(k, m).place) && ManyTicks(k, m).tick < N && ManyTicks(k, m).locks == k.locks
    ensures ManyTicks(k, m + n) == ManyTicks(ManyTicks(k, m), n)
    decreases m
  {
    hide Sound, ExpireAll;
    if m > 0 {
      TickOnceKeeps(k);
      TicksAddUp(TickOnce(k), m - 1, n);
    }
  }

  lemma {:induction false} PendedDoesNotMatter(k: State, n: nat, pended: nat)
    requires Sound(k.place) && k.tick < N
    ensures ManyTicks(k.(pended := pended), n) == ManyTicks(k, n).(pended := pended)
    decreases n
  {
    hide Sound, ExpireAll;
    if n > 0 {
      TickOnceKeeps(k);
      assert TickOnce(k.(pended := pended)) == TickOnce(k).(pended := pended);
      PendedDoesNotMatter(TickOnce(k), n - 1, pended);
    }
  }

  /** However many ticks come while the scheduler is suspended: resuming afterwards gives the
      state, lists, counters and all, of resuming at once and then taking the ticks. */
  lemma SuspensionIsTransparent(k: State, n: nat)
    requires Sound(k.place) && k.tick < N && k.locks == 1
    ensures Sound(Interrupts(k, n).place) && Interrupts(k, n).tick < N && Interrupts(k, n).locks == 1
    ensures Sound(ResumeAll(k).place) && ResumeAll(k).tick < N
    ensures ResumeAll(Interrupts(k, n)) == Interrupts(ResumeAll(k), n)
  {
    hide Sound, TickOnce, MovePending;
    SuspendedInterruptsPend(k, n);
    MovePendingEmpties(k.place);
    var u := Unlock(k);
    var p := k.pended;
    TicksAddUp(u, p, n);
    PendedDoesNotMatter(u, p + n, p + n);
    var r := ManyTicks(u, p);
    PendedDoesNotMatter(r, n, 0);
    RunningInterruptsTick(r.(pended := 0), n);
    assert Unlock(k.(pended := p + n)) == u.(pended := p + n);
  }

  // ---- The delayed lists, as module DelayedLists has them ----

  function View(k: State): DL.Delays {
    DL.Delays(k.tick, k.overflows, k.nextUnblock, OnDelayed(k.place), Items(k.place.state, Overflow(k.place)))
  }

  /** The absolute time the counters show. */
  function Clock(k: State): nat {
    Abs(k.overflows, k.tick)
  }

  /** A tick of the kernel is a tick of the delayed lists. */
  lemma TickOnceIsTick(k: State)
    requires Sound(k.place) && k.tick < N
    ensures View(TickOnce(k)) == DL.Tick(View(k)).0
  {
    hide Sound, ExpireAll;
    var tick := Plus(k.tick, 1);
    FlipKeeps(k.place);
    ExpireAllTakesTheDue(if tick == 0 then k.place.(first := !k.place.first) else k.place, tick);
  }

  // ---- Every operation ----

  datatype Step =
    | Tick                              // xTaskIncrementTick
    | Lock                              // vTaskSuspendAll
    | Resume                            // xTaskResumeAll
    | Switch                            // vTaskSwitchContext
    | DelaySelf(w: nat)                 // vTaskDelay, xTaskDelayUntil
    | BlockOn(o: nat, w: nat)           // vTaskPlaceOnEventList
    | BlockUnordered(o: nat, value: nat, w: nat)   // vTaskPlaceOnUnorderedEventList
    | BlockRestricted(o: nat, w: nat, forever: bool)   // vTaskPlaceOnEventListRestricted
    | AwaitNotice(w: nat)               // ulTaskGenericNotifyTake, xTaskGenericNotifyWait
    | WakeHead(o: nat)                  // xTaskRemoveFromEventList
    | WakeUnordered(t: Id)              // vTaskRemoveFromUnorderedEventList
    | SuspendTask(t: Id)                // vTaskSuspend
    | ResumeTask(t: Id)                 // vTaskResume
    | ResumeFromIsr(t: Id)              // xTaskResumeFromISR
    | Abort(t: Id, notified: bool)      // xTaskAbortDelay; whether t waits for a notification
    | Notify(t: Id)                     // xTaskGenericNotify, for a task that waits for it
    | NotifyFromIsr(t: Id)              // vTaskNotifyGiveFromISR, for a task that waits for it
    | NotifyLate(t: Id, isr: bool)      // the same two, when the wait is over and t has not run since
    | SetPriority(t: Id, prio: nat)     // vTaskPrioritySet, and the inheritance functions
    | New(t: Id, prio: nat)             // prvAddNewTaskToReadyList
    | Remove(t: Id)                     // vTaskDelete
    | CleanUp                           // prvCheckTasksWaitingTermination, by the idle task
    | SkipTicks(jump: nat)              // vTaskStepTick

  // Each operation is made of a few moves of one task.

  /** To its ready list. */
  function Rouse(k: State, t: Id): State
    requires t in k.place.prio
  {
    k.(place := Awaken(k.place, t))
  }

  /** Its event item to the pending-ready list. */
  function Defer(k: State, t: Id): State {
    k.(place := ToPending(k.place, t))
  }

  /** Its event item to an event list, in the order of the value, or at the end. */
  function Join(k: State, t: Id, o: nat, value: nat): State {
    k.(place := JoinEvent(k.place, t, o, value))
  }

  function JoinEnd(k: State, t: Id, o: nat, value: nat): State {
    k.(place := JoinUnordered(k.place, t, o, value))
  }

  /** prvResetNextTaskUnblockTime */
  function Refresh(k: State): State {
    k.(nextUnblock := DL.HeadTime(OnDelayed(k.place)))
  }

  /** prvAddCurrentTaskToDelayedList, with a wake time. */
  function AddToDelayed(k: State, t: Id, w: nat): State
    requires k.tick < N && w < N
  {
    var wake := Plus(k.tick, w);
    k.(place := Delay(k.place, t, wake, wake < k.tick),
       nextUnblock := if wake >= k.tick && wake < k.nextUnblock then wake else k.nextUnblock)
  }

  /** And without one. */
  function Forever(k: State, t: Id): State {
    k.(place := BlockForever(k.place, t))
  }

  /** With the wait that never ends, if w is that. */
  function Wait(k: State, t: Id, w: nat): State
    requires k.tick < N && w < N
  {
    if w == MAX_DELAY then Forever(k, t) else AddToDelayed(k, t, w)
  }

  /** vTaskPlaceOnEventList: the running task blocks, in the order of its priority. */
  function BlockOnEvent(k: State, o: nat, w: nat): State
    requires k.tick < N && w < N && k.running in k.place.prio
  {
    Join(Wait(k, k.running, w), k.running, o, Key(k.place.prio[k.running]))
  }

  /** vTaskPlaceOnUnorderedEventList */
  function BlockInGroup(k: State, o: nat, value: nat, w: nat): State
    requires k.tick < N && w < N
  {
    JoinEnd(Wait(k, k.running, w), k.running, o, value)
  }

  /** vTaskPlaceOnEventListRestricted */
  function BlockOnRestricted(k: State, o: nat, w: nat, forever: bool): State
    requires k.tick < N && w < N && k.running in k.place.prio
  {
    var d := if forever then Forever(k, k.running) else AddToDelayed(k, k.running, w);
    JoinEnd(d, k.running, o, Key(k.place.prio[k.running]))
  }

  /** A notification or a resume from an interrupt. */
  function WakeUp(k: State, t: Id): State
    requires t in k.place.prio
  {
    if k.locks == 0 then Rouse(k, t) else Defer(k, t)
  }

  /** xTaskRemoveFromEventList, with tickless idle. */
  function WakeFromEvent(k: State, t: Id): State
    requires t in k.place.prio
  {
    if k.locks == 0 then Refresh(Rouse(k, t)) else Defer(k, t)
  }

  /** vTaskSuspend */
  function SuspendTo(k: State, t: Id): State {
    Refresh(k.(place := Suspend(k.place, t)))
  }

  /** vTaskPrioritySet */
  function Reprioritise(k: State, t: Id, prio: nat): State
    requires t in k.place.prio
  {
    k.(place := ChangePriority(k.place, t, prio))
  }

  /** prvAddNewTaskToReadyList */
  function CreateTask(k: State, t: Id, prio: nat): State {
    k.(place := Create(k.place, t, prio))
  }

  /** Gone at once, or on the termination list. */
  function Discard(k: State, t: Id, itself: bool): State {
    k.(place := Delete(k.place, t, itself))
  }

  /** vTaskDelete */
  function DeleteFrom(k: State, t: Id): State {
    if t == k.running then Discard(k, t, true) else Refresh(Discard(k, t, false))
  }

  /** prvCheckTasksWaitingTermination: the task that has waited longest; the cached time stays. */
  function FreeDeleted(k: State): State
    requires Items(k.place.state, Termination) != []
  {
    Discard(k, Items(k.place.state, Termination)[0].who, false)
  }

  /** vTaskStepTick: if the jump ends on the cached unblock time, its last tick is left pending. */
  function StepTick(k: State, jump: nat): (n: State)
    requires k.tick < N && CanStep(k, jump)
    ensures n == k.(tick := n.tick, pended := n.pended) && n.tick < N
    ensures k.tick + jump < N ==> n.tick + n.pended == k.tick + jump + k.pended
  {
    if Plus(k.tick, jump) == k.nextUnblock
    then k.(tick := Plus(k.tick, jump - 1), pended := k.pended + 1)
    else k.(tick := Plus(k.tick, jump))
  }

  /** The assertions of vTaskStepTick, which add in tick arithmetic. */
  predicate CanStep(k: State, jump: nat)
    requires k.tick < N
  {
    jump < N && Plus(k.tick, jump) <= k.nextUnblock && (Plus(k.tick, jump) == k.nextUnblock ==> jump != 0 && k.locks > 0)
  }

  /** prvTaskIsTaskSuspended */
  predicate IsSuspended(p: Place, t: Id) {
    t in p.state.on && p.state.on[t] == Suspended && t !in p.event.on
  }

  /** Blocked, as eTaskGetState has it for a task that is not the one that runs. */
  predicate IsBlocked(p: Place, t: Id, notified: bool) {
    && t in p.state.on
    && (p.state.on[t] == DelayedOne || p.state.on[t] == DelayedTwo ||
        (p.state.on[t] == Suspended && (t in p.event.on || notified)))
  }

  /** The placement invariant. */
  ghost predicate Inv(k: State) {
    && Sound(k.place) && k.tick < N
    && AlwaysReady(k.place, k.idle)
    && (k.locks == 0 ==> NonePending(k.place))
    && k.running in k.place.prio
  }

  /** A task that calls is running, and so it is ready; the idle task does not block and is not
      suspended, deleted or given another priority. */
  ghost predicate Enabled(k: State, s: Step) {
    var p := k.place;
    var runs := k.running in p.state.on && p.state.on[k.running].Ready? && k.running !in p.event.on &&
                k.running != k.idle;
    match s
    case Tick => true
    case Lock => true
    case Resume => k.locks > 0
    case Switch => true
    case DelaySelf(w) => runs && 0 < w < N
    case BlockOn(o, w) => runs && 0 < w < N
    case BlockRestricted(o, w, forever) => runs && k.locks > 0 && w < N && (!forever ==> k.tick < N && DL.Holds(k.tick, w))
    case AwaitNotice(w) => runs && 0 < w < N
    case SkipTicks(jump) => k.locks > 0 && k.tick < N && k.tick + jump < N && CanStep(k, jump)
    case BlockUnordered(o, value, w) => runs && 0 < w < N && k.locks > 0
    case WakeHead(o) => Items(p.event, Event(o)) != []
    case WakeUnordered(t) => k.locks > 0 && t in p.event.on && p.event.on[t].Event?
    case SuspendTask(t) =>
      && t in p.prio && t != k.idle && (t == k.running ==> k.locks == 0)
      && t in p.state.on && p.state.on[t] != Termination
    case ResumeTask(t) => t != k.running
    case ResumeFromIsr(t) => true
    case Abort(t, notified) => t != k.running
    case Notify(t) => t in p.state.on && Waiting(p.state.on[t]) && t !in p.event.on
    case NotifyFromIsr(t) => t in p.state.on && Waiting(p.state.on[t]) && t !in p.event.on
    case NotifyLate(t, isr) => t in p.state.on && p.state.on[t].Ready? && t != k.idle && (isr ==> k.locks == 0)
    case SetPriority(t, prio) => t in p.prio && t != k.idle
    case New(t, prio) => t !in p.prio
    case Remove(t) =>
      && t in p.prio && t != k.idle && (t == k.running ==> k.locks == 0)
      && t in p.state.on && p.state.on[t] != Termination
    case CleanUp => k.running == k.idle && Items(p.state, Termination) != []
  }

  /** What each operation does to the state. The reset of the cached time in
      vTaskRemoveFromUnorderedEventList comes before the task leaves its list. */
  ghost function Next(k: State, s: Step): State
    requires Inv(k) && Enabled(k, s)
  {
    hide InOrder, AlwaysReady, NonePending, Items;
    match s
    case Tick => IncrementTick(k)
    case Lock => SuspendAll(k)
    case Resume => ResumeAll(k)
    case Switch => SwitchContext(k)
    case DelaySelf(w) => AddToDelayed(k, k.running, w)
    case BlockOn(o, w) => BlockOnEvent(k, o, w)
    case BlockUnordered(o, value, w) => BlockInGroup(k, o, value, w)
    case BlockRestricted(o, w, forever) => BlockOnRestricted(k, o, w, forever)
    case AwaitNotice(w) => Wait(k, k.running, w)
    case WakeHead(o) => EventHeadWaits(k.place, o); WakeFromEvent(k, Items(k.place.event, Event(o))[0].who)
    case WakeUnordered(t) => Rouse(Refresh(k), t)
    case SuspendTask(t) => SuspendTo(k, t)
    case ResumeTask(t) => if IsSuspended(k.place, t) then Rouse(k, t) else k
    case ResumeFromIsr(t) => if IsSuspended(k.place, t) then WakeUp(k, t) else k
    case Abort(t, notified) => if IsBlocked(k.place, t, notified) then Rouse(k, t) else k
    case Notify(t) => Refresh(Rouse(k, t))
    case NotifyFromIsr(t) => WakeUp(k, t)
    case NotifyLate(t, isr) => if isr then Rouse(k, t) else Refresh(Rouse(k, t))
    case SetPriority(t, prio) => Reprioritise(k, t, prio)
    case New(t, prio) => CreateTask(k, t, prio)
    case Remove(t) => DeleteFrom(k, t)
    case CleanUp => FreeDeleted(k)
    case SkipTicks(jump) => StepTick(k, jump)
  }

  // ---- Context switches ----

  /** vTaskSwitchContext: no switch while the scheduler is suspended, else
      taskSELECT_HIGHEST_PRIORITY_TASK. */
  function SwitchContext(k: State): State
    requires Sound(k.place)
  {
    LowerTopFinds(k.place);
    var p := LowerTop(k.place);
    if k.locks > 0 || Items(p.state, Ready(p.top)) == [] then k
    else
      PickIsHighest(p);
      k.(place := PickNext(p).0, running := PickNext(p).1)
  }

  /** With the idle task ready the search always finds a task, and nothing ready has a higher
      priority than the one it chooses. */
  lemma SwitchPicksHighest(k: State)
    requires Inv(k) && k.locks == 0
    ensures var p := LowerTop(k.place); Items(p.state, Ready(p.top)) != []
    ensures var n := SwitchContext(k);
            && Inv(n) && n.place.state.on == k.place.state.on && n.place.prio == k.place.prio
            && n.running in n.place.state.on && n.place.state.on[n.running] == Ready(n.place.prio[n.running])
            && (forall u :: u in n.place.state.on && n.place.state.on[u].Ready? ==>
                  n.place.prio[u] <= n.place.prio[n.running])
  {
    hide InOrder;
    LowerTopFinds(k.place);
    PickIsHighest(LowerTop(k.place));
  }

  // ---- Every operation keeps the invariant ----

  lemma ElsewhereKeeps(k: State, n: State, t: Id)
    requires Inv(k) && Sound(n.place) && n.tick < N && Elsewhere(k.place, n.place, t)
    requires t != k.idle && n.idle == k.idle && n.locks == k.locks
    requires n.running == k.running && k.running in n.place.prio
    requires k.idle in n.place.prio && n.place.prio[k.idle] == k.place.prio[k.idle]
    requires t in n.place.event.on && k.locks == 0 ==> n.place.event.on[t] != Pending
    ensures Inv(n)
  {
    hide Sound, AlwaysReady, NonePending, Elsewhere;
    ElsewhereReady(k.place, n.place, t, k.idle);
    if k.locks == 0 {
      ElsewherePending(k.place, n.place, t);
    }
  }

  lemma ElsewhereReady(p: Place, q: Place, t: Id, u: Id)
    requires Elsewhere(p, q, t) && AlwaysReady(p, u) && u != t && u in q.prio && q.prio[u] == p.prio[u]
    ensures AlwaysReady(q, u)
  {
  }

  lemma ElsewherePending(p: Place, q: Place, t: Id)
    requires Elsewhere(p, q, t) && NonePending(p) && (t in q.event.on ==> q.event.on[t] != Pending)
    ensures NonePending(q)
  {
  }

  lemma TickOnceInv(k: State)
    requires Inv(k) && k.locks == 0
    ensures Inv(TickOnce(k)) && TickOnce(k).locks == 0
  {
    hide Sound, ExpireAll, AlwaysReady;
    var tick := Plus(k.tick, 1);
    var p := if tick == 0 then k.place.(first := !k.place.first) else k.place;
    FlipKeeps(k.place);
    FlipSpares(k.place, k.idle);
    TickOnceKeeps(k);
    ExpireAllSpares(p, tick, k.idle);
    ExpireAllLeavesNonePending(p, tick);
  }

  lemma FlipSpares(p: Place, t: Id)
    requires AlwaysReady(p, t)
    ensures AlwaysReady(p.(first := !p.first), t)
  {
  }

  lemma {:induction false} ManyTicksInv(k: State, n: nat)
    requires Inv(k) && k.locks == 0
    ensures Inv(ManyTicks(k, n)) && ManyTicks(k, n).locks == 0
    decreases n
  {
    hide Inv, TickOnce, Sound;
    InvIsSound(k);
    InvIsTidy(k);
    if n > 0 {
      TickOnceInv(k);
      assert Sound(TickOnce(k).place) && TickOnce(k).tick < N by { InvIsSound(TickOnce(k)); InvIsTidy(TickOnce(k)); }
      ManyTicksInv(TickOnce(k), n - 1);
    }
  }

  /** When the scheduler runs again nothing is pending any more. */
  lemma UnlockInv(k: State)
    requires Inv(k) && k.locks == 1
    ensures Inv(Unlock(k)) && Unlock(k).locks == 0
  {
    hide Sound, MovePending, AlwaysReady, NonePending, Items;
    MovePendingEmpties(k.place);
    MovePendingSpares(k.place, k.idle);
    NonePendingMeansEmpty(MovePending(k.place));
  }

  lemma ResumeInv(k: State)
    requires Inv(k) && k.locks > 0
    ensures Inv(ResumeAll(k)) && ResumeAll(k).locks == k.locks - 1
  {
    hide Sound, AlwaysReady, ManyTicks, NonePending, Unlock;
    if k.locks == 1 {
      UnlockInv(k);
      ManyTicksInv(Unlock(k), k.pended);
    }
  }

  lemma RefreshInv(k: State)
    requires Inv(k)
    ensures Inv(Refresh(k))
  {
    hide Sound, AlwaysReady;
  }

  /** t waits, and for no event yet. */
  ghost predicate Waits(k: State, t: Id) {
    t in k.place.state.on && Waiting(k.place.state.on[t]) && t !in k.place.event.on
  }

  /** t could block: it is a task, not the idle task, and waits for no event. */
  ghost predicate Blockable(k: State, t: Id) {
    t in k.place.prio && t != k.idle && t !in k.place.event.on
  }

  lemma DelayInv(k: State, t: Id, w: nat)
    requires Inv(k) && Blockable(k, t) && w < N
    ensures Inv(AddToDelayed(k, t, w)) && Waits(AddToDelayed(k, t, w), t)
  {
    hide Sound, Delay;
    var wake := Plus(k.tick, w);
    DelayKeeps(k.place, t, wake, wake < k.tick);
    DelayFrame(k.place, t, wake, wake < k.tick);
    ElsewhereKeeps(k, AddToDelayed(k, t, w), t);
  }

  lemma ForeverInv(k: State, t: Id)
    requires Inv(k) && Blockable(k, t)
    ensures Inv(Forever(k, t)) && Waits(Forever(k, t), t)
  {
    hide Sound, BlockForever;
    BlockForeverKeeps(k.place, t);
    BlockForeverFrame(k.place, t);
    ElsewhereKeeps(k, Forever(k, t), t);
  }

  lemma DelayFrame(p: Place, t: Id, value: nat, later: bool)
    ensures Delay(p, t, value, later).prio == p.prio && Delay(p, t, value, later).event == p.event
  {
  }

  lemma BlockForeverFrame(p: Place, t: Id)
    ensures BlockForever(p, t).prio == p.prio && BlockForever(p, t).event == p.event
  {
  }

  /** Blocking keeps the invariant, and leaves the task on a delayed or the suspended list. */
  lemma WaitInv(k: State, t: Id, w: nat)
    requires Inv(k) && Blockable(k, t) && k.tick < N && w < N
    ensures Inv(Wait(k, t, w)) && Waits(Wait(k, t, w), t)
  {
    hide Inv, Waits, Blockable, AddToDelayed, Forever;
    DelayInv(k, t, w);
    ForeverInv(k, t);
  }

  /** What has begun to wait may go on an event list. */
  lemma JoinInv(d: State, t: Id, o: nat, value: nat)
    requires Inv(d) && Waits(d, t) && t != d.idle
    ensures Inv(Join(d, t, o, value)) && Inv(JoinEnd(d, t, o, value))
  {
    JoinEventKeeps(d.place, t, o, value);
    JoinUnorderedKeeps(d.place, t, o, value);
    hide Sound, AlwaysReady, Waiting;
    ElsewhereKeeps(d, Join(d, t, o, value), t);
    ElsewhereKeeps(d, JoinEnd(d, t, o, value), t);
  }

  lemma WaitFrame(k: State, t: Id, w: nat)
    requires k.tick < N && w < N
    ensures Wait(k, t, w).idle == AddToDelayed(k, t, w).idle == Forever(k, t).idle == k.idle
  {
  }

  lemma JoiningInv(k: State, o: nat, value: nat, w: nat, forever: bool)
    requires Inv(k) && Blockable(k, k.running) && k.running in k.place.prio && k.tick < N && w < N
    ensures Inv(BlockOnEvent(k, o, w)) && Inv(BlockInGroup(k, o, value, w)) && Inv(BlockOnRestricted(k, o, w, forever))
  {
    var t := k.running;
    assert t != k.idle;
    hide Inv, Waits, Blockable, Wait, AddToDelayed, Forever, Join, JoinEnd, Key;
    WaitFrame(k, t, w);
    WaitInv(k, t, w);
    DelayInv(k, t, w);
    ForeverInv(k, t);
    JoinInv(Wait(k, t, w), t, o, Key(k.place.prio[t]));
    JoinInv(Wait(k, t, w), t, o, value);
    JoinInv(if forever then Forever(k, t) else AddToDelayed(k, t, w), t, o, Key(k.place.prio[t]));
  }

  lemma BlockingInv(k: State, s: Step)
    requires Inv(k) && Enabled(k, s)
    requires s.DelaySelf? || s.BlockOn? || s.BlockUnordered? || s.BlockRestricted? || s.AwaitNotice?
    ensures Inv(Next(k, s))
  {
    hide Inv, Enabled, Blockable, Wait, AddToDelayed, BlockOnEvent, BlockInGroup, BlockOnRestricted, SwitchContext,
      IncrementTick, ResumeAll;
    RunningMayBlock(k, s);
    InvIsTidy(k);
    match s
    case DelaySelf(w) => DelayInv(k, k.running, w);
    case AwaitNotice(w) => WaitInv(k, k.running, w);
    case BlockOn(o, w) => JoiningInv(k, o, 0, w, false);
    case BlockUnordered(o, value, w) => JoiningInv(k, o, value, w, false);
    case BlockRestricted(o, w, forever) => JoiningInv(k, o, 0, w, forever);
  }

  lemma RunningMayBlock(k: State, s: Step)
    requires Inv(k) && Enabled(k, s)
    requires s.DelaySelf? || s.BlockOn? || s.BlockUnordered? || s.BlockRestricted? || s.AwaitNotice?
    ensures Blockable(k, k.running) && k.running in k.place.state.on && k.place.state.on[k.running].Ready?
    ensures s.w < N && k.running != k.idle && k.running in k.place.prio
    ensures !(s.BlockRestricted? && s.forever) ==> DL.Holds(k.tick, s.w)
  {
    hide Sound, AlwaysReady;
  }

  lemma RouseInv(k: State, t: Id)
    requires Inv(k) && t in k.place.prio && t != k.idle
    ensures Inv(Rouse(k, t))
  {
    AwakenKeeps(k.place, t);
    AwakenFrame(k.place, t);
    hide Sound, Awaken;
    ElsewhereKeeps(k, Rouse(k, t), t);
  }

  lemma AwakenFrame(p: Place, t: Id)
    requires t in p.prio
    ensures Awaken(p, t).prio == p.prio
  {
  }

  lemma DeferInv(k: State, t: Id)
    requires Inv(k) && k.locks > 0 && t in k.place.prio && t != k.idle
    requires t in k.place.state.on && Waiting(k.place.state.on[t])
    ensures Inv(Defer(k, t))
  {
    ToPendingKeeps(k.place, t);
    ToPendingFrame(k.place, t);
    hide Sound, ToPending;
    ElsewhereKeeps(k, Defer(k, t), t);
  }

  lemma ToPendingFrame(p: Place, t: Id)
    ensures ToPending(p, t).prio == p.prio
  {
  }

  /** The task that an operation readies, now or when the scheduler runs again, if it does. */
  function Readied(k: State, s: Step): Id {
    match s
    case WakeHead(o) => if Items(k.place.event, Event(o)) != [] then Items(k.place.event, Event(o))[0].who else 0
    case WakeUnordered(t) => t
    case ResumeTask(t) => t
    case ResumeFromIsr(t) => t
    case Abort(t, notified) => t
    case Notify(t) => t
    case NotifyFromIsr(t) => t
    case NotifyLate(t, isr) => t
    case _ => 0
  }

  ghost predicate Readies(k: State, s: Step, t: Id) {
    && t == Readied(k, s)
    && match s
       case WakeHead(o) => Items(k.place.event, Event(o)) != []
       case WakeUnordered(u) => true
       case ResumeTask(u) => IsSuspended(k.place, u)
       case ResumeFromIsr(u) => IsSuspended(k.place, u)
       case Abort(u, notified) => IsBlocked(k.place, u, notified)
       case Notify(u) => true
       case NotifyFromIsr(u) => true
       case NotifyLate(u, isr) => true
       case _ => false
  }

  /** It waits, or has waited for a notification, and is not the idle task. */
  lemma ReadiedWaits(k: State, s: Step, t: Id)
    requires Inv(k) && Enabled(k, s) && Readies(k, s, t)
    ensures t in k.place.prio && t != k.idle && t in k.place.state.on
    ensures if s.NotifyLate? then k.place.state.on[t].Ready? else Waiting(k.place.state.on[t])
  {
    hide InOrder, Items;
    if s.WakeHead? {
      EventHeadWaits(k.place, s.o);
    }
  }

  lemma ReadyingInv(k: State, s: Step, t: Id)
    requires Inv(k) && Enabled(k, s) && Readies(k, s, t)
    ensures Inv(Next(k, s))
  {
    hide Inv, Enabled, Rouse, Defer, Refresh, IsSuspended, IsBlocked, IncrementTick, ResumeAll, SwitchContext;
    ReadiedWaits(k, s, t);
    RefreshFrame(k);
    RouseInv(k, t);
    RefreshInv(Rouse(k, t));
    if k.locks > 0 && !s.NotifyLate? {
      DeferInv(k, t);
    }
    if s.WakeUnordered? {
      RefreshInv(k);
      RouseInv(Refresh(k), t);
    }
  }

  lemma RefreshFrame(k: State)
    ensures Refresh(k).place == k.place && Refresh(k).idle == k.idle
  {
  }

  lemma InvIsSound(k: State)
    requires Inv(k)
    ensures Sound(k.place)
  {
  }

  lemma InvIsTidy(k: State)
    requires Inv(k)
    ensures k.tick < N && k.running in k.place.prio && k.idle in k.place.prio
  {
  }

  lemma SuspendInv(k: State, t: Id)
    requires Inv(k) && t in k.place.prio && t != k.idle
    ensures Inv(SuspendTo(k, t))
  {
    SuspendKeeps(k.place, t);
    SuspendFrame(k.place, t);
    hide Sound, Suspend, OnDelayed;
    ElsewhereKeeps(k, SuspendTo(k, t), t);
  }

  lemma SuspendFrame(p: Place, t: Id)
    ensures Suspend(p, t).prio == p.prio
  {
  }

  lemma SetPriorityInv(k: State, t: Id, prio: nat)
    requires Inv(k) && t in k.place.prio && t != k.idle
    ensures Inv(Reprioritise(k, t, prio))
  {
    ChangePriorityKeeps(k.place, t, prio);
    ChangePriorityEvents(k.place, t, prio);
    hide Sound, ChangePriority;
    ElsewhereKeeps(k, Reprioritise(k, t, prio), t);
  }

  lemma ChangePriorityEvents(p: Place, t: Id, prio: nat)
    requires t in p.prio
    ensures ChangePriority(p, t, prio).event == p.event
  {
  }

  lemma NewInv(k: State, t: Id, prio: nat)
    requires Inv(k) && t !in k.place.prio
    ensures Inv(CreateTask(k, t, prio))
  {
    CreateKeeps(k.place, t, prio);
    CreateFrame(k.place, t, prio);
    hide Sound, Create;
    ElsewhereKeeps(k, CreateTask(k, t, prio), t);
  }

  lemma CreateFrame(p: Place, t: Id, prio: nat)
    ensures Create(p, t, prio).prio == p.prio[t := prio] && Create(p, t, prio).event == p.event
  {
  }

  lemma DiscardInv(k: State, t: Id, itself: bool)
    requires Inv(k) && t in k.place.prio && t != k.idle && (t == k.running ==> itself)
    ensures Inv(Discard(k, t, itself))
  {
    DeleteKeeps(k.place, t, itself);
    DeleteFrame(k.place, t, itself);
    hide Sound, Delete;
    ElsewhereKeeps(k, Discard(k, t, itself), t);
  }

  /** What waits for its clean-up is a task, and not the idle task. */
  lemma DeletedIsNotIdle(k: State)
    requires Inv(k) && Items(k.place.state, Termination) != []
    ensures var t := Items(k.place.state, Termination)[0].who;
            t in k.place.prio && t != k.idle && t in k.place.state.on && k.place.state.on[t] == Termination
  {
    var s := Items(k.place.state, Termination);
    assert Has(s, s[0].who);
    OnExactlyOneList(k.place.state, Termination, s[0].who);
  }

  lemma DeleteFrame(p: Place, t: Id, itself: bool)
    ensures var q := Delete(p, t, itself);
            && (forall u :: u in q.prio <==> u in p.prio && (itself || u != t))
            && (forall u :: u in q.prio ==> q.prio[u] == p.prio[u])
  {
  }

  lemma DeletingInv(k: State, t: Id, itself: bool)
    requires Inv(k) && t in k.place.prio && t != k.idle && (t == k.running ==> itself)
    ensures Inv(Discard(k, t, itself)) && Inv(Refresh(Discard(k, t, itself)))
  {
    hide Inv, Discard, Refresh;
    DiscardInv(k, t, itself);
    RefreshInv(Discard(k, t, itself));
  }

  lemma SkippingInv(k: State, jump: nat)
    requires Inv(k) && CanStep(k, jump)
    ensures Inv(StepTick(k, jump))
  {
    hide Sound, AlwaysReady;
  }

  /** While the scheduler is suspended nothing is switched. */
  lemma NoSwitch(k: State)
    requires Sound(k.place) && k.locks > 0
    ensures SwitchContext(k) == k
  {
    hide Sound, LowerTop;
  }

  lemma LockingInv(k: State)
    requires Inv(k)
    ensures Inv(SuspendAll(k)) && (k.locks > 0 ==> Inv(k.(pended := k.pended + 1)))
  {
    hide Sound, AlwaysReady;
  }

  lemma CountingInv(k: State, s: Step)
    requires Inv(k) && Enabled(k, s) && (s.Tick? || s.Lock? || s.Resume? || s.Switch?)
    ensures Inv(Next(k, s))
  {
    hide Inv, Sound, TickOnce, ResumeAll, SwitchContext, Refresh;
    InvIsSound(k);
    InvIsTidy(k);
    LockingInv(k);
    match s
    case Tick => if k.locks == 0 { TickOnceInv(k); }
    case Lock =>
    case Resume => ResumeInv(k);
    case Switch => if k.locks == 0 { SwitchPicksHighest(k); } else { NoSwitch(k); }
  }

  /** Whatever happens, every task stays on exactly one state list, a ready task on the list of
      its priority, nothing on an event list is ready, nothing is pending while the scheduler
      runs, and no ready list above the top has anything on it. */
  lemma NextKeeps(k: State, s: Step)
    requires Inv(k) && Enabled(k, s)
    ensures Inv(Next(k, s))
  {
    hide Inv, Rouse, Refresh, Defer, WakeUp, SuspendTo, Reprioritise, CreateTask, Discard, StepTick, AddToDelayed, Wait,
      BlockOnEvent, BlockInGroup, BlockOnRestricted, SuspendAll, IncrementTick, ResumeAll, SwitchContext;
    match s
    case Tick => CountingInv(k, s);
    case Lock => CountingInv(k, s);
    case Resume => CountingInv(k, s);
    case Switch => CountingInv(k, s);
    case DelaySelf(w) => BlockingInv(k, s);
    case BlockOn(o, w) => BlockingInv(k, s);
    case BlockUnordered(o, value, w) => BlockingInv(k, s);
    case BlockRestricted(o, w, forever) => BlockingInv(k, s);
    case AwaitNotice(w) => BlockingInv(k, s);
    case WakeHead(o) => ReadyingInv(k, s, Items(k.place.event, Event(o))[0].who);
    case WakeUnordered(t) => ReadyingInv(k, s, t);
    case ResumeTask(t) => if IsSuspended(k.place, t) { ReadyingInv(k, s, t); }
    case ResumeFromIsr(t) => if IsSuspended(k.place, t) { ReadyingInv(k, s, t); }
    case Abort(t, notified) => if IsBlocked(k.place, t, notified) { ReadyingInv(k, s, t); }
    case Notify(t) => ReadyingInv(k, s, t);
    case NotifyFromIsr(t) => ReadyingInv(k, s, t);
    case NotifyLate(t, isr) => ReadyingInv(k, s, t);
    case SuspendTask(t) => SuspendInv(k, t);
    case SetPriority(t, prio) => SetPriorityInv(k, t, prio);
    case New(t, prio) => NewInv(k, t, prio);
    case Remove(t) => DeletingInv(k, t, t == k.running);
    case CleanUp =>
      DeletedIsNotIdle(k);
      DeletingInv(k, Items(k.place.state, Termination)[0].who, false);
    case SkipTicks(jump) => SkippingInv(k, jump);
  }

  ghost predicate Possible(k: State, steps: seq<Step>)
    requires Inv(k)
    decreases |steps|
  {
    steps == [] ||
    (Enabled(k, steps[0]) && (NextKeeps(k, steps[0]); Possible(Next(k, steps[0]), steps[1..])))
  }

  ghost function Run(k: State, steps: seq<Step>): State
    requires Inv(k) && Possible(k, steps)
    decreases |steps|
  {
    if steps == [] then k
    else
      NextKeeps(k, steps[0]);
      Run(Next(k, steps[0]), steps[1..])
  }

  lemma {:induction false} RunKeeps(k: State, steps: seq<Step>)
    requires Inv(k) && Possible(k, steps)
    ensures Inv(Run(k, steps))
    decreases |steps|
  {
    hide Inv, Next, Enabled;
    if steps != [] {
      NextKeeps(k, steps[0]);
      RunKeeps(Next(k, steps[0]), steps[1..]);
    }
  }

  /** The state before the scheduler starts: the idle task has been created, and is to run. */
  function Start(idle: Id): State {
    State(Create(NOTHING, idle, 0), 0, 0, MAX_DELAY, 0, 0, idle, idle)
  }

  lemma StartInv(idle: Id)
    ensures Inv(Start(idle))
  {
    CreateKeeps(NOTHING, idle, 0);
  }

  ghost predicate PossibleFromStart(idle: Id, steps: seq<Step>) {
    StartInv(idle);
    Possible(Start(idle), steps)
  }

  /** Where a run of the kernel ends. */
  ghost function End(idle: Id, steps: seq<Step>): (k: State)
    requires PossibleFromStart(idle, steps)
    ensures Inv(k)
  {
    StartInv(idle);
    RunKeeps(Start(idle), steps);
    Run(Start(idle), steps)
  }

  /** Kernel-wide placement, over every run: everything alive is on exactly one state list, once;
      on the ready list of a priority only with that priority; its event item is on one list
      at most, and on the pending-ready list only while the scheduler is suspended. */
  lemma PlacementAlwaysHolds(idle: Id, steps: seq<Step>, t: Id, l: StateList, e: EventList)
    requires PossibleFromStart(idle, steps)
    ensures var k := End(idle, steps); var v := k.place;
            && (t in v.prio <==> t in v.state.on)
            && (Has(Items(v.state, l), t) <==> t in v.prio && v.state.on[t] == l)
            && Separate(Items(v.state, l))
            && (l.Ready? && Has(Items(v.state, l), t) ==> v.prio[t] == l.p <= v.top)
            && (l.Ready? && v.top < l.p ==> Items(v.state, l) == [])
            && (Has(Items(v.event, e), t) <==> t in v.event.on && v.event.on[t] == e)
            && Separate(Items(v.event, e))
            && (k.locks == 0 ==> Items(v.event, Pending) == [])
  {
    hide InOrder, Has, Separate, AlwaysReady;
    var v := End(idle, steps).place;
    OnExactlyOneList(v.state, l, t);
    OnExactlyOneList(v.event, e, t);
    NonePendingMeansEmpty(v);
    if l.Ready? && v.top < l.p {
      NothingAboveTop(v, l.p);
    }
  }

  /** And after every run a context switch, which is possible as long as the scheduler is not
      suspended, chooses a task that is ready and has the highest priority of all that are. */
  lemma SwitchAlwaysPicksHighest(idle: Id, steps: seq<Step>, u: Id)
    requires PossibleFromStart(idle, steps) && End(idle, steps).locks == 0
    ensures var n := SwitchContext(End(idle, steps)); var v := n.place;
            && n.running in v.prio && Has(Items(v.state, Ready(v.prio[n.running])), n.running)
            && (u in v.prio && Has(Items(v.state, Ready(v.prio[u])), u) ==> v.prio[u] <= v.prio[n.running])
  {
    var k := End(idle, steps);
    var n := SwitchContext(k);
    SwitchPicksHighest(k);
    hide End, SwitchContext, InOrder, Has, AlwaysReady;
    OnExactlyOneList(n.place.state, Ready(n.place.prio[n.running]), n.running);
    if u in n.place.prio {
      OnExactlyOneList(n.place.state, Ready(n.place.prio[u]), u);
    }
  }
}
