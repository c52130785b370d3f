/**
  Preemption: a ready task of a higher priority than the one that runs gets the processor. The
  kernel's calls ask for a context switch in many places, each with a test of its own; together
  they have to see to it that whenever no switch is owed, the running task is a highest-priority
  ready one.
*/
module Preemption {
  import opened Ticks
  import opened TimedLists
  import opened Boards
  import opened Placement
  import opened Priorities
  import K = Kernel
  import DL = DelayedLists

  datatype System = System(
    kernel: K.State,
    pending: bool,     // xYieldPending
    asked: bool,       // a switch has been asked of the port and has not been made yet
    leaving: bool)     // the running task has blocked, suspended or deleted itself, and yields next

  /** The operations of the kernel, those on priorities told apart, and a yield. What a task does
      right behind a critical section on the strength of what it found there comes with it. */
  datatype Op =
    | Plain(step: K.Step)
    | PrioritySet(t: Id, prio: nat)     // vTaskPrioritySet, of a task that has not inherited
    | Inherit(t: Id)                    // xTaskPriorityInherit, t the holder
    | AfterTimeout(t: Id, prio: nat)    // vTaskPriorityDisinheritAfterTimeout
    | Give(prio: nat, o: nat)           // xQueueGenericSend on a mutex, whose giver returns to prio
    | Yield                             // portYIELD_WITHIN_API

  function Prio(k: K.State): nat
    requires k.running in k.place.prio
  {
    k.place.prio[k.running]
  }

  // ---- What each call finds out about a switch ----

  /** The loop of the tick: whether something it readies is above priority r. */
  predicate Raises(p: Place, tick: nat, r: nat)
    requires Sound(p)
    decreases |Items(p.state, Current(p))|
  {
    var s := Items(p.state, Current(p));
    if s == [] || tick < s[0].value then false
    else
      HeadIsAlive(p);
      HeadLeaves(p);
      p.prio[s[0].who] > r || Raises(Awaken(p, s[0].who), tick, r)
  }

  /** What xTaskIncrementTick returns with the scheduler running, apart from a pending yield. */
  predicate TickSwitches(k: K.State)
    requires Sound(k.place) && k.tick < N && k.running in k.place.prio
  {
    var tick := Plus(k.tick, 1);
    var place := if tick == 0 then k.place.(first := !k.place.first) else k.place;
    var next := if tick == 0 then DL.HeadTime(K.OnDelayed(place)) else k.nextUnblock;
    || (tick >= next && Raises(place, tick, Prio(k)))
    || |Items(K.TickOnce(k).place.state, Ready(Prio(k)))| > 1
  }

  /** The loop of xTaskResumeAll over the pended ticks. */
  predicate TicksSwitch(k: K.State, n: nat)
    requires Sound(k.place) && k.tick < N && k.running in k.place.prio
    decreases n
  {
    n > 0 && (K.TickOnceKeeps(k); TickSwitches(k) || TicksSwitch(K.TickOnce(k), n - 1))
  }

  /** And over the pending-ready list: whether something it readies is at least of priority r. */
  predicate MovesUp(p: Place, r: nat)
    requires Sound(p)
    decreases |Items(p.event, Pending)|
  {
    var s := Items(p.event, Pending);
    s != [] &&
    (PendingIsAlive(p);
     PendingShrinks(p);
     p.prio[s[0].who] >= r || MovesUp(Awaken(p, s[0].who), r))
  }

  predicate ResumeSwitches(k: K.State)
    requires Sound(k.place) && k.tick < N && k.running in k.place.prio
  {
    MovePendingEmpties(k.place);
    MovesUp(k.place, Prio(k)) || TicksSwitch(K.Unlock(k), k.pended)
  }

  ghost predicate Enabled(s: System, op: Op)
    requires K.Inv(s.kernel)
  {
    var k := s.kernel;
    var p := k.place;
    match op
    case Plain(step) => !step.SetPriority? && K.Enabled(k, step)
    case PrioritySet(t, prio) => t in p.prio && t != k.idle
    case Inherit(t) => t in p.prio && t != k.idle && p.prio[t] < Prio(k)
    case AfterTimeout(t, prio) => t in p.prio && t != k.idle && t != k.running && prio < p.prio[t]
    case Give(prio, o) =>
      && k.running in p.state.on && p.state.on[k.running].Ready? && k.running != k.idle && prio <= Prio(k)
    case Yield => true
  }

  /** The giver of a mutex, back at its own priority. */
  ghost function Disinherited(k: K.State, prio: nat): (n: K.State)
    requires K.Inv(k) && k.running != k.idle
    ensures K.Inv(n) && n.running == k.running
  {
    K.NextKeeps(k, K.SetPriority(k.running, prio));
    if prio < Prio(k) then K.Next(k, K.SetPriority(k.running, prio)) else k
  }

  ghost function Next(s: System, op: Op): System
    requires K.Inv(s.kernel) && Enabled(s, op)
  {
    hide K.Inv, K.Next, K.Enabled, Disinherited;
    K.InvIsTidy(s.kernel);
    var k := s.kernel;
    match op
    case Plain(step) => PlainNext(s, step)
    case PrioritySet(t, prio) =>
      if prio == k.place.prio[t] then s
      else s.(kernel := Reset(k, t, prio),
              asked := s.asked || (if prio > k.place.prio[t] then t != k.running && prio >= Prio(k) else t == k.running))
    case Inherit(t) => s.(kernel := Reset(k, t, Prio(k)))
    case AfterTimeout(t, prio) => s.(kernel := Reset(k, t, prio))
    case Give(prio, o) =>
      var d := Disinherited(k, prio);
      if Items(d.place.event, Event(o)) == [] then s.(kernel := d, asked := s.asked || prio < Prio(k))
      else
        var higher := HeadAbove(d, o);
        s.(kernel := Woken(d, o), pending := s.pending || higher, asked := s.asked || higher)
    case Yield => s.(asked := true, leaving := false)
  }

  ghost function Reset(k: K.State, t: Id, prio: nat): K.State
    requires K.Inv(k) && t in k.place.prio && t != k.idle
  {
    K.Next(k, K.SetPriority(t, prio))
  }

  ghost function Woken(k: K.State, o: nat): K.State
    requires K.Inv(k) && Items(k.place.event, Event(o)) != []
  {
    K.Next(k, K.WakeHead(o))
  }

  /** The head of the event list has a higher priority than the running task. */
  ghost predicate HeadAbove(k: K.State, o: nat)
    requires K.Inv(k) && Items(k.place.event, Event(o)) != []
  {
    EventHeadWaits(k.place, o);
    k.place.prio[Items(k.place.event, Event(o))[0].who] > Prio(k)
  }

  /** t exists, and its priority is above r, or at least r. */
  predicate Above(p: Place, t: Id, r: nat) {
    t in p.prio && p.prio[t] > r
  }

  predicate AtLeast(p: Place, t: Id, r: nat) {
    t in p.prio && p.prio[t] >= r
  }

  ghost function PlainNext(s: System, step: K.Step): System
    requires K.Inv(s.kernel) && K.Enabled(s.kernel, step)
  {
    hide InOrder, AlwaysReady, NonePending, K.Next;
    var k, n := s.kernel, K.Next(s.kernel, step);
    var p, r := k.place, Prio(k);
    match step
    case Tick => s.(kernel := n, asked := s.asked || (k.locks == 0 && (s.pending || TickSwitches(k))))
    case Lock => s.(kernel := n)
    case Resume =>
      if k.locks > 1 then s.(kernel := n)
      else
        var asks := s.pending || ResumeSwitches(k);
        System(n, asks, s.asked || asks, s.leaving && !asks)
    case Switch => if k.locks > 0 then s.(kernel := n, pending := true, asked := false) else System(n, false, false, false)
    case DelaySelf(w) => s.(kernel := n, leaving := true)
    case BlockOn(o, w) => s.(kernel := n, leaving := true)
    case BlockUnordered(o, value, w) => s.(kernel := n, leaving := true)
    case BlockRestricted(o, w, forever) => s.(kernel := n, leaving := true)
    case AwaitNotice(w) => s.(kernel := n, leaving := true)
    case WakeHead(o) => s.(kernel := n, pending := s.pending || HeadAbove(k, o))
    case WakeUnordered(t) => s.(kernel := n, pending := s.pending || Above(p, t, r))
    case SuspendTask(t) => s.(kernel := n, leaving := s.leaving || t == k.running)
    case ResumeTask(t) => s.(kernel := n, asked := s.asked || (K.IsSuspended(p, t) && AtLeast(p, t, r)))
    case ResumeFromIsr(t) =>
      s.(kernel := n, pending := s.pending || (K.IsSuspended(p, t) && k.locks == 0 && AtLeast(p, t, r)))
    case Abort(t, notified) => s.(kernel := n, pending := s.pending || (K.IsBlocked(p, t, notified) && Above(p, t, r)))
    case Notify(t) => s.(kernel := n, asked := s.asked || Above(p, t, r))
    case NotifyFromIsr(t) => s.(kernel := n, pending := s.pending || Above(p, t, r))
    case NotifyLate(t, isr) =>
      if isr then s.(kernel := n, pending := s.pending || Above(p, t, r))
      else s.(kernel := n, asked := s.asked || Above(p, t, r))
    case SetPriority(t, prio) => s.(kernel := n)
    case New(t, prio) => s.(kernel := n, asked := s.asked || r < prio)
    case Remove(t) => s.(kernel := n, leaving := s.leaving || t == k.running)
    case CleanUp => s.(kernel := n)
    case SkipTicks(jump) => s.(kernel := n)
  }

  // ---- Highest ----

  /** Nothing ready is above priority r. */
  ghost predicate NothingAbove(p: Place, r: nat) {
    forall t :: t in p.state.on && p.state.on[t].Ready? ==> p.state.on[t].p <= r
  }

  /** The running task is ready, and nothing ready has a higher priority. */
  ghost predicate Highest(k: K.State) {
    && k.running in k.place.state.on && k.place.state.on[k.running].Ready?
    && NothingAbove(k.place, k.place.state.on[k.running].p)
  }

  /** A switch will be made. */
  predicate Owed(s: System) {
    s.pending || s.asked || s.leaving
  }

  /** One task has moved, not the one that runs: if it is ready, not above it. */
  lemma OneMoved(k: K.State, n: K.State, t: Id)
    requires Highest(k) && Elsewhere(k.place, n.place, t) && n.running == k.running && t != k.running
    requires t in n.place.state.on && n.place.state.on[t].Ready? ==> n.place.state.on[t].p <= k.place.state.on[k.running].p
    ensures Highest(n)
  {
  }

  lemma SameLists(k: K.State, n: K.State)
    requires Highest(k) && n.place.state.on == k.place.state.on && n.running == k.running
    ensures Highest(n)
  {
  }

  // ---- Ticks ----

  /** If the loop raises nothing above r, there is nothing above r afterwards. */
  lemma {:induction false} ExpireKeeps(p: Place, tick: nat, r: nat, run: Id)
    requires Sound(p) && NothingAbove(p, r) && !Raises(p, tick, r)
    requires run in p.state.on && p.state.on[run] == Ready(r)
    ensures var q := ExpireAll(p, tick); NothingAbove(q, r) && run in q.state.on && q.state.on[run] == Ready(r)
    decreases |Items(p.state, Current(p))|
  {
    hide Sound, Awaken;
    var s := Items(p.state, Current(p));
    if s != [] && s[0].value <= tick {
      HeadIsAlive(p);
      HeadLeaves(p);
      AwakenKeeps(p, s[0].who);
      assert s[0].who != run;
      ExpireKeeps(Awaken(p, s[0].who), tick, r, run);
    }
  }

  lemma TickKeepsHighest(k: K.State)
    requires K.Inv(k) && Highest(k) && !TickSwitches(k)
    ensures Highest(K.TickOnce(k))
  {
    hide InOrder, ExpireAll, Raises, DL.HeadTime, NonePending, AlwaysReady, Items;
    var tick := Plus(k.tick, 1);
    var p := if tick == 0 then k.place.(first := !k.place.first) else k.place;
    FlipKeeps(k.place);
    hide Sound;
    if !Raises(p, tick, Prio(k)) {
      ExpireKeeps(p, tick, Prio(k), k.running);
    }
  }

  // ---- Resuming the scheduler ----

  lemma {:induction false} MovingKeeps(p: Place, r: nat, run: Id)
    requires Sound(p) && NothingAbove(p, r) && !MovesUp(p, r)
    requires run in p.state.on && p.state.on[run] == Ready(r)
    ensures var q := MovePending(p); NothingAbove(q, r) && run in q.state.on && q.state.on[run] == Ready(r)
    decreases |Items(p.event, Pending)|
  {
    hide Sound, Awaken;
    var s := Items(p.event, Pending);
    if s != [] {
      PendingIsAlive(p);
      PendingShrinks(p);
      AwakenKeeps(p, s[0].who);
      PendingIsNot(p, run);
      MovingKeeps(Awaken(p, s[0].who), r, run);
    }
  }

  lemma PendingIsNot(p: Place, run: Id)
    requires Sound(p) && Items(p.event, Pending) != [] && run in p.state.on && p.state.on[run].Ready?
    ensures Items(p.event, Pending)[0].who != run
  {
    hide InOrder;
    PendingIsAlive(p);
  }

  lemma {:induction false} TicksKeepHighest(k: K.State, n: nat)
    requires K.Inv(k) && k.locks == 0 && Highest(k) && !TicksSwitch(k, n)
    ensures Highest(K.ManyTicks(k, n))
    decreases n
  {
    hide K.Inv, Sound, Highest, TickSwitches, K.TickOnce;
    K.InvIsSound(k);
    K.InvIsTidy(k);
    if n > 0 {
      K.TickOnceKeeps(k);
      K.TickOnceInv(k);
      TickKeepsHighest(k);
      TicksKeepHighest(K.TickOnce(k), n - 1);
    }
  }

  lemma UnlockedInv(k: K.State)
    requires K.Inv(k) && k.locks == 1
    ensures K.Inv(K.Unlock(k))
  {
    hide InOrder, MovePending, AlwaysReady;
    MovePendingEmpties(k.place);
    MovePendingSpares(k.place, k.idle);
    NonePendingMeansEmpty(MovePending(k.place));
  }

  lemma UnlockKeepsHighest(k: K.State)
    requires K.Inv(k) && Highest(k) && !MovesUp(k.place, Prio(k))
    ensures Highest(K.Unlock(k))
  {
    hide InOrder, MovePending, MovesUp, NonePending, AlwaysReady, Items, DL.HeadTime;
    MovingKeeps(k.place, Prio(k), k.running);
  }

  lemma ResumeKeepsHighest(k: K.State)
    requires K.Inv(k) && k.locks == 1 && Highest(k) && !ResumeSwitches(k)
    ensures Highest(K.ResumeAll(k))
  {
    hide K.Inv, Sound, Highest, TicksSwitch, MovesUp, K.Unlock, K.ManyTicks;
    K.InvIsSound(k);
    K.InvIsTidy(k);
    UnlockedInv(k);
    K.InvIsTidy(K.Unlock(k));
    K.InvIsSound(K.Unlock(k));
    UnlockKeepsHighest(k);
    UnlockedLocks(k);
    TicksKeepHighest(K.Unlock(k), k.pended);
    PendedAside(K.ManyTicks(K.Unlock(k), k.pended));
  }

  lemma UnlockedLocks(k: K.State)
    requires Sound(k.place)
    ensures K.Unlock(k).locks == 0
  {
    hide Sound, MovePending;
  }

  lemma PendedAside(k: K.State)
    requires Highest(k)
    ensures Highest(k.(pended := 0))
  {
  }

  // ---- The other calls ----

  lemma WaitingIsNot(k: K.State, t: Id)
    requires Highest(k) && t in k.place.state.on && Waiting(k.place.state.on[t])
    ensures t != k.running
  {
  }

  /** Readying a task that is not above the running one. */
  lemma RouseKeepsHighest(k: K.State, t: Id)
    requires K.Inv(k) && Highest(k) && t in k.place.prio && t != k.running && k.place.prio[t] <= Prio(k)
    ensures Highest(K.Rouse(k, t)) && Highest(K.Refresh(K.Rouse(k, t))) && Highest(K.Rouse(K.Refresh(k), t))
    ensures Highest(K.Defer(k, t))
  {
    hide InOrder, Awaken, NonePending, AlwaysReady, Elsewhere, DL.HeadTime, Items;
    AwakenKeeps(k.place, t);
    OneMoved(k, K.Rouse(k, t), t);
    SameLists(K.Rouse(k, t), K.Refresh(K.Rouse(k, t)));
    SameLists(K.Rouse(k, t), K.Rouse(K.Refresh(k), t));
    SameLists(k, K.Defer(k, t));
  }

  lemma SuspendKeepsHighest(k: K.State, t: Id)
    requires K.Inv(k) && Highest(k) && t in k.place.prio && t != k.running
    ensures Highest(K.SuspendTo(k, t))
  {
    hide InOrder, Suspend, NonePending, AlwaysReady, Elsewhere, DL.HeadTime, Items;
    SuspendKeeps(k.place, t);
    OneMoved(k, K.SuspendTo(k, t), t);
  }

  lemma NewKeepsHighest(k: K.State, t: Id, prio: nat)
    requires K.Inv(k) && Highest(k) && t !in k.place.prio && prio <= Prio(k)
    ensures Highest(K.CreateTask(k, t, prio))
  {
    hide InOrder, Create, NonePending, AlwaysReady, Elsewhere, Items;
    CreateKeeps(k.place, t, prio);
    OneMoved(k, K.CreateTask(k, t, prio), t);
  }

  lemma DiscardKeepsHighest(k: K.State, t: Id)
    requires K.Inv(k) && Highest(k) && t in k.place.prio && t != k.running
    ensures Highest(K.Discard(k, t, false)) && Highest(K.Refresh(K.Discard(k, t, false)))
  {
    hide InOrder, Delete, NonePending, AlwaysReady, Elsewhere, DL.HeadTime, Items;
    DeleteKeeps(k.place, t, false);
    OneMoved(k, K.Discard(k, t, false), t);
    SameLists(K.Discard(k, t, false), K.Refresh(K.Discard(k, t, false)));
  }

  lemma ResetKeepsHighest(k: K.State, t: Id, prio: nat)
    requires K.Inv(k) && Highest(k) && t in k.place.prio && t != k.idle
    requires if t == k.running then prio >= Prio(k) else prio <= Prio(k) || prio < k.place.prio[t]
    ensures Highest(Reset(k, t, prio))
  {
    hide InOrder, ChangePriority, NonePending, AlwaysReady, Items;
    ChangePriorityKeeps(k.place, t, prio);
  }

  // ---- Every operation ----

  lemma CountingKeepsHighest(s: System, step: K.Step)
    requires K.Inv(s.kernel) && K.Enabled(s.kernel, step) && !Owed(s) && Highest(s.kernel)
    requires step.Tick? || step.Lock? || step.Resume? || step.SkipTicks?
    requires !Owed(PlainNext(s, step))
    ensures Highest(PlainNext(s, step).kernel)
  {
    hide K.Inv, Sound, Highest, TickSwitches, ResumeSwitches, K.TickOnce, K.ResumeAll, K.StepTick, DL.HeadTime, Items;
    K.InvIsSound(s.kernel);
    K.InvIsTidy(s.kernel);
    var k := s.kernel;
    match step
    case Tick =>
      if k.locks == 0 {
        TickKeepsHighest(k);
      } else {
        SameLists(k, k.(pended := k.pended + 1));
      }
    case Lock => SameLists(k, K.SuspendAll(k));
    case Resume =>
      if k.locks > 1 {
        StillSuspended(k);
        SameLists(k, K.ResumeAll(k));
      } else {
        ResumeKeepsHighest(k);
      }
    case SkipTicks(jump) => SteppedLists(k, jump); SameLists(k, K.StepTick(k, jump));
  }

  lemma StillSuspended(k: K.State)
    requires Sound(k.place) && k.tick < N && k.locks > 1
    ensures K.ResumeAll(k) == k.(locks := k.locks - 1)
  {
    hide Sound;
  }

  lemma SteppedLists(k: K.State, jump: nat)
    requires k.tick < N && K.CanStep(k, jump)
    ensures K.StepTick(k, jump).place == k.place && K.StepTick(k, jump).running == k.running
  {
  }

  /** What is readied waits, and so is not the running task, nor, unless a switch is asked for,
      above it; or it is ready already. */
  lemma ReadyingKeepsHighest(s: System, step: K.Step, t: Id)
    requires K.Inv(s.kernel) && K.Enabled(s.kernel, step) && !Owed(s) && Highest(s.kernel)
    requires K.Readies(s.kernel, step, t) && !Owed(PlainNext(s, step))
    ensures Highest(PlainNext(s, step).kernel)
  {
    hide K.Inv, K.Enabled, Highest, K.Rouse, K.Defer, K.Refresh, K.IsSuspended, K.IsBlocked, K.IncrementTick, K.ResumeAll,
      K.SwitchContext, Items, TickSwitches, ResumeSwitches, Waiting;
    var k := s.kernel;
    K.ReadiedWaits(k, step, t);
    K.InvIsTidy(k);
    if step.NotifyLate? {
      LateKeepsHighest(k, t);
    } else if step.ResumeFromIsr? && k.locks > 0 {
      DeferKeepsHighest(k, t);
    } else {
      WaitingIsNot(k, t);
      RouseKeepsHighest(k, t);
    }
  }

  /** Readying what is ready already, be it the running task. */
  lemma LateKeepsHighest(k: K.State, t: Id)
    requires K.Inv(k) && Highest(k) && t in k.place.prio && t in k.place.state.on && k.place.state.on[t].Ready?
    ensures Highest(K.Rouse(k, t)) && Highest(K.Refresh(K.Rouse(k, t)))
  {
    hide InOrder, Awaken, NonePending, AlwaysReady, DL.HeadTime, Items;
    AwakenKeeps(k.place, t);
    SameLists(K.Rouse(k, t), K.Refresh(K.Rouse(k, t)));
  }

  lemma DeferKeepsHighest(k: K.State, t: Id)
    requires Highest(k)
    ensures Highest(K.Defer(k, t))
  {
    hide TakeOff, PutEnd;
  }

  lemma GoingKeepsHighest(s: System, step: K.Step)
    requires K.Inv(s.kernel) && K.Enabled(s.kernel, step) && !Owed(s) && Highest(s.kernel)
    requires step.SuspendTask? || step.New? || step.Remove? || step.CleanUp?
    requires !Owed(PlainNext(s, step))
    ensures Highest(PlainNext(s, step).kernel)
  {
    hide K.Inv, Highest, K.SuspendTo, K.CreateTask, K.Discard, K.Refresh, Items, TickSwitches, ResumeSwitches;
    var k := s.kernel;
    K.InvIsTidy(k);
    match step
    case SuspendTask(t) => SuspendKeepsHighest(k, t);
    case New(t, prio) => NewKeepsHighest(k, t, prio);
    case Remove(t) => DiscardKeepsHighest(k, t);
    case CleanUp =>
      K.DeletedIsNotIdle(k);
      DeletedIsNot(k, Items(k.place.state, Termination)[0].who);
      DiscardKeepsHighest(k, Items(k.place.state, Termination)[0].who);
  }

  lemma DeletedIsNot(k: K.State, t: Id)
    requires Highest(k) && t in k.place.state.on && k.place.state.on[t] == Termination
    ensures t != k.running
  {
  }

  /** A switch with the scheduler running. */
  lemma SwitchIsHighest(k: K.State)
    requires K.Inv(k) && k.locks == 0
    ensures Highest(K.SwitchContext(k))
  {
    hide InOrder, LowerTop, NonePending, AlwaysReady, Items;
    K.SwitchPicksHighest(k);
  }

  /** A kernel operation after which no switch is owed leaves the running task a highest-priority
      ready one. */
  lemma PlainKeepsHighest(s: System, step: K.Step)
    requires K.Inv(s.kernel) && K.Enabled(s.kernel, step) && !step.SetPriority?
    requires Owed(s) || Highest(s.kernel)
    ensures Owed(PlainNext(s, step)) || Highest(PlainNext(s, step).kernel)
  {
    hide K.Inv, K.Enabled, K.Next, Highest, TickSwitches, ResumeSwitches, K.IsSuspended, K.IsBlocked, Items;
    var k := s.kernel;
    if step.Switch? && k.locks == 0 {
      SwitchNext(k);
      SwitchIsHighest(k);
    } else if !Owed(s) && !Owed(PlainNext(s, step)) {
      if step.Tick? || step.Lock? || step.Resume? || step.SkipTicks? {
        CountingKeepsHighest(s, step);
      } else if step.SuspendTask? || step.New? || step.Remove? || step.CleanUp? {
        GoingKeepsHighest(s, step);
      } else {
        var t := K.Readied(k, step);
        if K.Readies(k, step, t) {
          ReadyingKeepsHighest(s, step, t);
        } else {
          NothingChanges(k, step);
        }
      }
    }
  }

  lemma SwitchNext(k: K.State)
    requires K.Inv(k) && K.Enabled(k, K.Switch)
    ensures K.Next(k, K.Switch) == K.SwitchContext(k)
  {
    hide K.Inv, K.SwitchContext;
    K.InvIsSound(k);
  }

  lemma NothingChanges(k: K.State, step: K.Step)
    requires K.Inv(k) && K.Enabled(k, step) && !K.Readies(k, step, K.Readied(k, step))
    requires step.WakeHead? || step.WakeUnordered? || step.ResumeTask? || step.ResumeFromIsr? || step.Abort? ||
             step.Notify? || step.NotifyFromIsr? || step.NotifyLate?
    ensures K.Next(k, step) == k
  {
    hide K.Inv, K.Rouse, K.Defer, K.Refresh, K.IsSuspended, K.IsBlocked, Items;
  }

  // ---- Giving a mutex back ----

  /** The giver falls back to a lower priority, a task waits for the mutex that is not above it
      then, and a ready task is. */
  ghost predicate LosesASwitch(k: K.State, prio: nat, o: nat)
    requires K.Inv(k)
  {
    && prio < Prio(k)
    && Items(k.place.event, Event(o)) != []
    && !Above(k.place, Items(k.place.event, Event(o))[0].who, prio)
    && exists u :: u in k.place.state.on && u != k.running && k.place.state.on[u].Ready? && k.place.state.on[u].p > prio
  }

  /** What giving back does to priorities and lists. */
  lemma DisinheritedFrame(k: K.State, prio: nat)
    requires K.Inv(k) && k.running != k.idle && Highest(k) && prio <= Prio(k)
    ensures var d := Disinherited(k, prio);
            && d.place.event == k.place.event && d.locks == k.locks
            && OthersStay(k.place.state, d.place.state, k.running)
            && k.running in d.place.state.on && d.place.state.on[k.running] == Ready(prio)
            && d.place.prio == k.place.prio[k.running := prio]
  {
    hide InOrder, ChangePriority, NonePending, AlwaysReady, Items;
    ChangePriorityKeeps(k.place, k.running, prio);
    K.ChangePriorityEvents(k.place, k.running, prio);
    if prio == Prio(k) {
      assert k.place.prio[k.running := prio] == k.place.prio;
    }
  }

  lemma WokenFrame(d: K.State, o: nat)
    requires K.Inv(d) && Items(d.place.event, Event(o)) != []
    ensures var n, t := Woken(d, o), Items(d.place.event, Event(o))[0].who;
            && n.running == d.running && t in d.place.prio
            && OthersStay(d.place.state, n.place.state, t)
            && t in d.place.state.on && Waiting(d.place.state.on[t]) && t in n.place.state.on
            && n.place.state.on[t] == if d.locks == 0 then Ready(d.place.prio[t]) else d.place.state.on[t]
  {
    hide InOrder, Awaken, NonePending, AlwaysReady, DL.HeadTime, Items, Waiting;
    EventHeadWaits(d.place, o);
    AwakenKeeps(d.place, Items(d.place.event, Event(o))[0].who);
  }

  /** Who is above the giver after it has woken the first that waits: whoever was before. */
  lemma WokenHighestIff(k: K.State, prio: nat, o: nat)
    requires K.Inv(k) && k.running != k.idle && Highest(k) && prio < Prio(k)
    requires Items(k.place.event, Event(o)) != [] && !Above(k.place, Items(k.place.event, Event(o))[0].who, prio)
    ensures Items(Disinherited(k, prio).place.event, Event(o)) != []
    ensures Highest(Woken(Disinherited(k, prio), o)) <==> !LosesASwitch(k, prio, o)
  {
    hide K.Inv, Sound, Disinherited, Woken, Items;
    DisinheritedFrame(k, prio);
    K.InvIsTidy(k);
    var d := Disinherited(k, prio);
    WokenFrame(d, o);
    var n, t := Woken(d, o), Items(d.place.event, Event(o))[0].who;
    assert n.place.state.on[k.running] == Ready(prio);
    forall u | u in n.place.state.on && u != k.running && u != t
      ensures u in k.place.state.on && n.place.state.on[u] == k.place.state.on[u] {}
    forall u | u in k.place.state.on && u != k.running && u != t
      ensures u in n.place.state.on && n.place.state.on[u] == k.place.state.on[u] {}
  }

  /** Giving a mutex back leaves the running task highest, or a switch owed, unless the call
      drops the switch that the loss of priority asks for, because it wakes a task that asks
      for none. */
  lemma GiveKeepsIff(s: System, prio: nat, o: nat)
    requires K.Inv(s.kernel) && Enabled(s, Give(prio, o)) && !Owed(s) && Highest(s.kernel)
    ensures var n := Next(s, Give(prio, o));
            (Owed(n) || Highest(n.kernel)) <==> !LosesASwitch(s.kernel, prio, o)
  {
    hide K.Inv, Sound, Highest, Disinherited, Woken, Items;
    var k := s.kernel;
    K.InvIsTidy(k);
    DisinheritedFrame(k, prio);
    var d := Disinherited(k, prio);
    if Items(k.place.event, Event(o)) != [] {
      WokenFrame(d, o);
      var t := Items(k.place.event, Event(o))[0].who;
      HeadIsNot(k, t);
      if prio < Prio(k) {
        if !Above(k.place, t, prio) {
          WokenHighestIff(k, prio, o);
        }
      } else if !Above(k.place, t, prio) {
        SameDisinherited(k, prio);
        WokenKeepsHighest(k, o);
      }
    } else if prio == Prio(k) {
      SameDisinherited(k, prio);
    }
  }

  lemma HeadIsNot(k: K.State, t: Id)
    requires Highest(k)
    ensures t in k.place.state.on && Waiting(k.place.state.on[t]) ==> t != k.running
  {
  }

  lemma SameDisinherited(k: K.State, prio: nat)
    requires K.Inv(k) && k.running != k.idle && prio == Prio(k)
    ensures Disinherited(k, prio) == k
  {
    hide K.Inv;
  }

  lemma WokenKeepsHighest(k: K.State, o: nat)
    requires K.Inv(k) && Highest(k)
    requires Items(k.place.event, Event(o)) != [] && !Above(k.place, Items(k.place.event, Event(o))[0].who, Prio(k))
    ensures Highest(Woken(k, o))
  {
    hide InOrder, NonePending, AlwaysReady, Woken, Items;
    WokenFrame(k, o);
  }

  // ---- Every run ----

  ghost predicate Loses(s: System, op: Op)
    requires K.Inv(s.kernel)
  {
    op.Give? && LosesASwitch(s.kernel, op.prio, op.o)
  }

  lemma NextInv(s: System, op: Op)
    requires K.Inv(s.kernel) && Enabled(s, op)
    ensures K.Inv(Next(s, op).kernel)
  {
    hide K.Inv, K.Next, K.Enabled, Disinherited, TickSwitches, ResumeSwitches, K.IsSuspended, K.IsBlocked, Items;
    var k := s.kernel;
    K.InvIsTidy(k);
    match op
    case Plain(step) => K.NextKeeps(k, step); PlainKernel(s, step);
    case PrioritySet(t, prio) => ResetInv(k, t, prio);
    case Inherit(t) => ResetInv(k, t, Prio(k));
    case AfterTimeout(t, prio) => ResetInv(k, t, prio);
    case Give(prio, o) =>
      var d := Disinherited(k, prio);
      if Items(d.place.event, Event(o)) != [] {
        WokenInv(d, o);
      }
    case Yield =>
  }

  lemma PlainKernel(s: System, step: K.Step)
    requires K.Inv(s.kernel) && K.Enabled(s.kernel, step)
    ensures PlainNext(s, step).kernel == K.Next(s.kernel, step)
  {
    hide K.Inv, K.Next, K.Enabled, TickSwitches, ResumeSwitches, K.IsSuspended, K.IsBlocked, Items, HeadAbove;
  }

  lemma ResetInv(k: K.State, t: Id, prio: nat)
    requires K.Inv(k) && t in k.place.prio && t != k.idle
    ensures K.Inv(Reset(k, t, prio))
  {
    hide K.Inv, K.Next;
    K.NextKeeps(k, K.SetPriority(t, prio));
  }

  lemma WokenInv(k: K.State, o: nat)
    requires K.Inv(k) && Items(k.place.event, Event(o)) != []
    ensures K.Inv(Woken(k, o))
  {
    hide K.Inv, K.Next, Items;
    K.NextKeeps(k, K.WakeHead(o));
  }

  /** After any operation but a losing one a switch is owed or the running task is highest. */
  lemma NextKeepsHighest(s: System, op: Op)
    requires K.Inv(s.kernel) && Enabled(s, op) && !Loses(s, op)
    requires Owed(s) || Highest(s.kernel)
    ensures Owed(Next(s, op)) || Highest(Next(s, op).kernel)
  {
    hide K.Inv, K.Enabled, Highest, PlainNext, LosesASwitch, HeadAbove, Disinherited, Woken, Reset, Items;
    var k := s.kernel;
    K.InvIsTidy(k);
    match op
    case Plain(step) => PlainKeepsHighest(s, step);
    case PrioritySet(t, prio) =>
      if !Owed(s) && !Owed(Next(s, op)) && prio != k.place.prio[t] {
        ResetKeepsHighest(k, t, prio);
      }
    case Inherit(t) => if !Owed(s) { ResetKeepsHighest(k, t, Prio(k)); }
    case AfterTimeout(t, prio) => if !Owed(s) { ResetKeepsHighest(k, t, prio); }
    case Give(prio, o) => if !Owed(s) { GiveKeepsIff(s, prio, o); }
    case Yield =>
  }

  ghost predicate Possible(s: System, ops: seq<Op>)
    requires K.Inv(s.kernel)
    decreases |ops|
  {
    ops == [] || (Enabled(s, ops[0]) && (NextInv(s, ops[0]); Possible(Next(s, ops[0]), ops[1..])))
  }

  ghost function Run(s: System, ops: seq<Op>): System
    requires K.Inv(s.kernel) && Possible(s, ops)
    decreases |ops|
  {
    if ops == [] then s
    else
      NextInv(s, ops[0]);
      Run(Next(s, ops[0]), ops[1..])
  }

  /** No mutex is given back in the losing way. */
  ghost predicate LosesNone(s: System, ops: seq<Op>)
    requires K.Inv(s.kernel) && Possible(s, ops)
    decreases |ops|
  {
    ops == [] || (!Loses(s, ops[0]) && (NextInv(s, ops[0]); LosesNone(Next(s, ops[0]), ops[1..])))
  }

  lemma {:induction false} RunKeepsHighest(s: System, ops: seq<Op>)
    requires K.Inv(s.kernel) && Possible(s, ops) && LosesNone(s, ops)
    requires Owed(s) || Highest(s.kernel)
    ensures K.Inv(Run(s, ops).kernel) && (Owed(Run(s, ops)) || Highest(Run(s, ops).kernel))
    decreases |ops|
  {
    hide K.Inv, Next, Enabled, Highest, Owed, Loses;
    if ops != [] {
      NextInv(s, ops[0]);
      NextKeepsHighest(s, ops[0]);
      RunKeepsHighest(Next(s, ops[0]), ops[1..]);
    }
  }

  ghost function First(idle: Id): (s: System)
    ensures K.Inv(s.kernel) && s.kernel == K.Start(idle) && !Owed(s)
  {
    K.StartInv(idle);
    System(K.Start(idle), false, false, false)
  }

  lemma FirstIsHighest(idle: Id)
    ensures Highest(First(idle).kernel)
  {
    hide InOrder, Create;
    NothingIsSound();
    CreateKeeps(NOTHING, idle, 0);
  }

  lemma NothingIsSound()
    ensures Sound(NOTHING)
  {
  }

  /** Over every run in which no give drops its switch: whenever no switch is owed, the task that
      runs is on the ready list of its priority, and no ready task has a higher priority. */
  lemma HighestRunsOrSwitchIsOwed(idle: Id, ops: seq<Op>, u: Id)
    requires Possible(First(idle), ops) && LosesNone(First(idle), ops)
    ensures var s := Run(First(idle), ops); var k := s.kernel; var p := k.place;
            && K.Inv(k)
            && (!Owed(s) ==>
                  && k.running in p.prio && Has(Items(p.state, Ready(p.prio[k.running])), k.running)
                  && (u in p.prio && Has(Items(p.state, Ready(p.prio[u])), u) ==> p.prio[u] <= p.prio[k.running]))
  {
    hide *;
    FirstIsHighest(idle);
    RunKeepsHighest(First(idle), ops);
    var s := Run(First(idle), ops);
    if !Owed(s) {
      HighestOnLists(s.kernel, u);
    }
  }

  lemma HighestOnLists(k: K.State, u: Id)
    requires K.Inv(k) && Highest(k)
    ensures var p := k.place;
            && k.running in p.prio && Has(Items(p.state, Ready(p.prio[k.running])), k.running)
            && (u in p.prio && Has(Items(p.state, Ready(p.prio[u])), u) ==> p.prio[u] <= p.prio[k.running])
  {
    hide InOrder, Has, NonePending, AlwaysReady, Items;
    var p := k.place;
    OnExactlyOneList(p.state, Ready(p.prio[k.running]), k.running);
    if u in p.prio {
      OnExactlyOneList(p.state, Ready(p.prio[u]), u);
    }
  }

  // ---- What is owed is paid ----

  /** An owed switch stays owed until one is made with the scheduler running, and that one leaves
      nothing owed and the highest task running. */
  lemma OwedUntilSwitched(s: System, op: Op)
    requires K.Inv(s.kernel) && Enabled(s, op)
    ensures op == Plain(K.Switch) && s.kernel.locks == 0 ==> !Owed(Next(s, op)) && Highest(Next(s, op).kernel)
    ensures !(op == Plain(K.Switch) && s.kernel.locks == 0) && Owed(s) ==> Owed(Next(s, op))
  {
    hide K.Inv, K.Enabled, K.Next, Highest, TickSwitches, ResumeSwitches, K.IsSuspended, K.IsBlocked, HeadAbove,
      Disinherited, Woken, Reset, Items;
    if op == Plain(K.Switch) && s.kernel.locks == 0 {
      SwitchNext(s.kernel);
      SwitchIsHighest(s.kernel);
    }
  }

  /** A pending yield is asked of the port at the latest by the next tick with the scheduler
      running, or when the scheduler is resumed; a tick also asks if another task of the
      running one's priority is ready. */
  lemma PendingIsAskedFor(s: System)
    requires K.Inv(s.kernel)
    ensures s.kernel.locks == 0 && s.pending ==> Next(s, Plain(K.Tick)).asked
    ensures s.kernel.locks == 1 && s.pending ==> Next(s, Plain(K.Resume)).asked
    ensures s.kernel.locks == 0 && |Items(K.TickOnce(s.kernel).place.state, Ready(Prio(s.kernel)))| > 1 ==>
              Next(s, Plain(K.Tick)).asked
  {
    hide K.Inv, K.Next, Raises, ResumeSwitches, Items, K.TickOnce, DL.HeadTime;
    K.InvIsTidy(s.kernel);
    K.InvIsSound(s.kernel);
  }

  // ---- No switch without a reason ----

  /** u is another task, not below priority r, that is ready or will be when the scheduler runs. */
  ghost predicate IsRival(p: Place, run: Id, r: nat, u: Id) {
    && u != run && u in p.prio && p.prio[u] >= r
    && ((u in p.state.on && p.state.on[u].Ready?) || (u in p.event.on && p.event.on[u] == Pending))
  }

  ghost predicate Rivalled(p: Place, run: Id, r: nat) {
    exists u :: IsRival(p, run, r, u)
  }

  lemma ReadyRival(p: Place, run: Id, r: nat, u: Id)
    requires u != run && u in p.prio && p.prio[u] >= r && u in p.state.on && p.state.on[u].Ready?
    ensures Rivalled(p, run, r)
  {
    assert IsRival(p, run, r, u);
  }

  /** A ready task of priority r at least, other than run. */
  ghost predicate ReadyAtLeast(p: Place, run: Id, r: nat, u: Id) {
    u != run && u in p.prio && p.prio[u] >= r && u in p.state.on && p.state.on[u].Ready?
  }

  ghost predicate SomeReady(p: Place, run: Id, r: nat) {
    exists u :: ReadyAtLeast(p, run, r, u)
  }

  lemma SomeIsRival(p: Place, run: Id, r: nat)
    requires SomeReady(p, run, r)
    ensures Rivalled(p, run, r)
  {
    var u :| ReadyAtLeast(p, run, r, u);
    ReadyRival(p, run, r, u);
  }

  lemma ExpireKeepsSome(p: Place, tick: nat, run: Id, r: nat)
    requires Sound(p) && SomeReady(p, run, r)
    ensures SomeReady(ExpireAll(p, tick), run, r)
  {
    hide Sound, ExpireAll;
    var u :| ReadyAtLeast(p, run, r, u);
    SoundAt(p, u);
    ReadyStays(p, tick, u);
    ExpireAllTakesTheDue(p, tick);
    assert ReadyAtLeast(ExpireAll(p, tick), run, r, u);
  }

  lemma {:induction false} RaisedIsThere(p: Place, tick: nat, run: Id, r: nat)
    requires Sound(p) && run in p.state.on && p.state.on[run].Ready? && Raises(p, tick, r)
    ensures SomeReady(ExpireAll(p, tick), run, r)
    decreases |Items(p.state, Current(p))|
  {
    hide Sound, Awaken, SomeReady;
    var s := Items(p.state, Current(p));
    HeadIsAlive(p);
    HeadLeaves(p);
    AwakenKeeps(p, s[0].who);
    assert s[0].who != run;
    var q := Awaken(p, s[0].who);
    if p.prio[s[0].who] > r {
      assert ReadyAtLeast(q, run, r, s[0].who);
      SomeFrom(q, run, r, s[0].who);
      ExpireKeepsSome(q, tick, run, r);
    } else {
      RaisedIsThere(q, tick, run, r);
    }
  }

  lemma SomeFrom(p: Place, run: Id, r: nat, u: Id)
    requires ReadyAtLeast(p, run, r, u)
    ensures SomeReady(p, run, r)
  {
  }

  lemma TickOnceKeepsSome(k: K.State, r: nat)
    requires Sound(k.place) && k.tick < N && SomeReady(k.place, k.running, r)
    ensures SomeReady(K.TickOnce(k).place, k.running, r)
  {
    hide Sound, ExpireAll, SomeReady, DL.HeadTime, Items;
    var tick := Plus(k.tick, 1);
    var p := if tick == 0 then k.place.(first := !k.place.first) else k.place;
    FlipKeeps(k.place);
    FlipKeepsSome(k.place, k.running, r);
    ExpireKeepsSome(p, tick, k.running, r);
  }

  lemma FlipKeepsSome(p: Place, run: Id, r: nat)
    requires SomeReady(p, run, r)
    ensures SomeReady(p.(first := !p.first), run, r)
  {
    var u :| ReadyAtLeast(p, run, r, u);
    assert ReadyAtLeast(p.(first := !p.first), run, r, u);
  }

  /** Two items on a ready list: one of them is another task. */
  lemma TwoReady(p: Place, run: Id, r: nat)
    requires Sound(p) && |Items(p.state, Ready(r))| > 1
    ensures SomeReady(p, run, r)
  {
    hide InOrder;
    var s := Items(p.state, Ready(r));
    assert Has(s, s[0].who) && Has(s, s[1].who);
    OnExactlyOneList(p.state, Ready(r), s[0].who);
    OnExactlyOneList(p.state, Ready(r), s[1].who);
    assert ReadyAtLeast(p, run, r, if s[0].who == run then s[1].who else s[0].who);
  }

  lemma TickHasReason(k: K.State)
    requires K.Inv(k) && Highest(k) && TickSwitches(k)
    ensures SomeReady(K.TickOnce(k).place, k.running, Prio(k))
  {
    hide InOrder, ExpireAll, Raises, DL.HeadTime, NonePending, AlwaysReady, SomeReady, Items;
    var tick := Plus(k.tick, 1);
    var p := if tick == 0 then k.place.(first := !k.place.first) else k.place;
    FlipKeeps(k.place);
    K.TickOnceKeeps(k);
    hide Sound;
    if |Items(K.TickOnce(k).place.state, Ready(Prio(k)))| > 1 {
      TwoReady(K.TickOnce(k).place, k.running, Prio(k));
    } else {
      RaisedIsThere(p, tick, k.running, Prio(k));
    }
  }

  lemma TickStaysReady(k: K.State)
    requires K.Inv(k) && Highest(k)
    ensures k.running in K.TickOnce(k).place.state.on
    ensures K.TickOnce(k).place.state.on[k.running] == k.place.state.on[k.running]
    ensures K.TickOnce(k).place.prio == k.place.prio && K.TickOnce(k).running == k.running
  {
    hide InOrder, ExpireAll, DL.HeadTime, NonePending, AlwaysReady, Items;
    var tick := Plus(k.tick, 1);
    var p := if tick == 0 then k.place.(first := !k.place.first) else k.place;
    FlipKeeps(k.place);
    ReadyStays(p, tick, k.running);
    K.TickOnceKeeps(k);
  }

  lemma {:induction false} TicksKeepSome(k: K.State, n: nat, r: nat)
    requires Sound(k.place) && k.tick < N && SomeReady(k.place, k.running, r)
    ensures SomeReady(K.ManyTicks(k, n).place, k.running, r)
    decreases n
  {
    hide Sound, K.TickOnce, SomeReady;
    if n > 0 {
      K.TickOnceKeeps(k);
      TickOnceKeepsSome(k, r);
      SameRunner(k);
      TicksKeepSome(K.TickOnce(k), n - 1, r);
    }
  }

  lemma SameRunner(k: K.State)
    requires Sound(k.place) && k.tick < N
    ensures K.TickOnce(k).running == k.running
  {
    hide Sound, ExpireAll, DL.HeadTime, Items;
  }

  lemma {:induction false} TicksHaveReason(k: K.State, n: nat)
    requires K.Inv(k) && k.locks == 0 && Highest(k) && TicksSwitch(k, n)
    ensures SomeReady(K.ManyTicks(k, n).place, k.running, Prio(k))
    decreases n
  {
    hide K.Inv, Sound, Highest, TickSwitches, K.TickOnce, SomeReady;
    K.InvIsSound(k);
    K.InvIsTidy(k);
    K.TickOnceKeeps(k);
    K.TickOnceInv(k);
    TickStaysReady(k);
    if TickSwitches(k) {
      TickHasReason(k);
      TicksKeepSome(K.TickOnce(k), n - 1, Prio(k));
    } else {
      TickKeepsHighest(k);
      TicksHaveReason(K.TickOnce(k), n - 1);
    }
  }

  lemma {:induction false} MovedIsThere(p: Place, run: Id, r: nat)
    requires Sound(p) && run in p.state.on && p.state.on[run].Ready? && MovesUp(p, r)
    ensures SomeReady(MovePending(p), run, r)
    decreases |Items(p.event, Pending)|
  {
    hide Sound, Awaken, SomeReady;
    var s := Items(p.event, Pending);
    PendingIsAlive(p);
    PendingShrinks(p);
    AwakenKeeps(p, s[0].who);
    PendingIsNot(p, run);
    var q := Awaken(p, s[0].who);
    if p.prio[s[0].who] >= r {
      assert q.prio[s[0].who] >= r;
      ReadyStaysMoving(q, s[0].who);
      MovePendingEmpties(q);
      SomeFrom(MovePending(q), run, r, s[0].who);
    } else {
      MovedIsThere(q, run, r);
    }
  }

  lemma ResumeHasReason(k: K.State)
    requires K.Inv(k) && k.locks == 1 && Highest(k) && ResumeSwitches(k)
    ensures SomeReady(K.ResumeAll(k).place, k.running, Prio(k))
  {
    hide K.Inv, Sound, Highest, TicksSwitch, MovesUp, K.Unlock, K.ManyTicks, SomeReady;
    K.InvIsSound(k);
    K.InvIsTidy(k);
    UnlockedInv(k);
    K.InvIsTidy(K.Unlock(k));
    K.InvIsSound(K.Unlock(k));
    UnlockedLocks(k);
    UnlockFrame(k);
    if MovesUp(k.place, Prio(k)) {
      HighestIsReady(k);
      MovedIsThere(k.place, k.running, Prio(k));
      TicksKeepSome(K.Unlock(k), k.pended, Prio(k));
    } else {
      UnlockKeepsHighest(k);
      TicksHaveReason(K.Unlock(k), k.pended);
    }
  }

  lemma HighestIsReady(k: K.State)
    requires Highest(k)
    ensures k.running in k.place.state.on && k.place.state.on[k.running].Ready?
  {
  }

  lemma UnlockFrame(k: K.State)
    requires Sound(k.place)
    ensures K.Unlock(k).place == MovePending(k.place) && K.Unlock(k).running == k.running
    ensures K.Unlock(k).place.prio == k.place.prio
  {
    hide Sound, MovePending, DL.HeadTime, Items;
    MovePendingEmpties(k.place);
  }

  /** Why a switch may be owed after an operation: the task yields, or the port asked while the
      scheduler was suspended; the running task is not ready any more, or has lost priority; or
      another one, not below it, is ready or about to be, or has had its priority set so high. */
  ghost predicate HasReason(s: System, op: Op, n: System)
    requires K.Inv(s.kernel) && K.Inv(n.kernel)
  {
    || op.Yield? || (op == Plain(K.Switch) && s.kernel.locks > 0)
    || !(n.kernel.running in n.kernel.place.state.on && n.kernel.place.state.on[n.kernel.running].Ready?)
    || (n.kernel.running == s.kernel.running && Prio(n.kernel) < Prio(s.kernel))
    || Rivalled(n.kernel.place, n.kernel.running, Prio(n.kernel))
    || (op.PrioritySet? && op.t != s.kernel.running && op.prio >= Prio(s.kernel))
  }

  lemma CountingHasReason(s: System, step: K.Step)
    requires K.Inv(s.kernel) && K.Enabled(s.kernel, step) && !Owed(s) && Highest(s.kernel)
    requires step.Tick? || step.Lock? || step.Resume? || step.SkipTicks?
    requires Owed(PlainNext(s, step)) && K.Inv(PlainNext(s, step).kernel)
    ensures Rivalled(PlainNext(s, step).kernel.place, s.kernel.running, Prio(s.kernel))
    ensures var n := PlainNext(s, step).kernel; n.running == s.kernel.running && n.place.prio == s.kernel.place.prio
  {
    hide K.Inv, Sound, Highest, TickSwitches, ResumeSwitches, K.TickOnce, K.ResumeAll, K.StepTick, DL.HeadTime, Items,
      SomeReady, Rivalled;
    var k := s.kernel;
    K.InvIsSound(k);
    K.InvIsTidy(k);
    match step
    case Tick =>
      TickHasReason(k);
      TickStaysReady(k);
      SomeIsRival(K.TickOnce(k).place, k.running, Prio(k));
    case Resume =>
      ResumeHasReason(k);
      ResumeFrame(k);
      SomeIsRival(K.ResumeAll(k).place, k.running, Prio(k));
    case _ =>
  }

  lemma {:induction false} TicksFrame(k: K.State, n: nat)
    requires Sound(k.place) && k.tick < N
    ensures K.ManyTicks(k, n).running == k.running && K.ManyTicks(k, n).place.prio == k.place.prio
    decreases n
  {
    hide Sound, K.TickOnce;
    if n > 0 {
      K.TickOnceKeeps(k);
      SameRunner(k);
      TicksFrame(K.TickOnce(k), n - 1);
    }
  }

  lemma ResumeFrame(k: K.State)
    requires Sound(k.place) && k.tick < N && k.locks == 1
    ensures K.ResumeAll(k).running == k.running && K.ResumeAll(k).place.prio == k.place.prio
  {
    hide Sound, MovePending, K.ManyTicks, DL.HeadTime, Items;
    MovePendingEmpties(k.place);
    TicksFrame(K.Unlock(k), k.pended);
  }

  /** A task that has been readied, or is pending, is there for the running task to yield to. */
  lemma RousedIsRival(k: K.State, t: Id)
    requires K.Inv(k) && t in k.place.prio && t != k.running && k.place.prio[t] >= Prio(k)
    ensures Rivalled(K.Rouse(k, t).place, k.running, Prio(k)) && K.Rouse(k, t).place.prio == k.place.prio
    ensures t in k.place.state.on && Waiting(k.place.state.on[t]) ==> Rivalled(K.Defer(k, t).place, k.running, Prio(k))
    ensures K.Defer(k, t).place.prio == k.place.prio
  {
    hide InOrder, Awaken, ToPending, NonePending, AlwaysReady, Elsewhere, Rivalled, Waiting;
    AwakenKeeps(k.place, t);
    K.AwakenFrame(k.place, t);
    K.ToPendingFrame(k.place, t);
    ReadyRival(K.Rouse(k, t).place, k.running, Prio(k), t);
    if t in k.place.state.on && Waiting(k.place.state.on[t]) {
      ToPendingKeeps(k.place, t);
      PendingRival(K.Defer(k, t).place, k.running, Prio(k), t);
    }
  }

  lemma PendingRival(p: Place, run: Id, r: nat, u: Id)
    requires u != run && u in p.prio && p.prio[u] >= r && u in p.event.on && p.event.on[u] == Pending
    ensures Rivalled(p, run, r)
  {
    assert IsRival(p, run, r, u);
  }

  lemma RefreshedRival(k: K.State, t: Id)
    requires t in k.place.prio
    ensures K.Refresh(K.Rouse(k, t)).place == K.Rouse(k, t).place && K.Rouse(K.Refresh(k), t).place == K.Rouse(k, t).place
    ensures K.Rouse(k, t).running == k.running && K.Refresh(K.Rouse(k, t)).running == k.running
    ensures K.Rouse(K.Refresh(k), t).running == k.running
  {
    hide Awaken, DL.HeadTime, Items;
  }

  lemma ReadyingHasReason(s: System, step: K.Step, t: Id)
    requires K.Inv(s.kernel) && K.Enabled(s.kernel, step) && !Owed(s) && Highest(s.kernel)
    requires K.Readies(s.kernel, step, t) && Owed(PlainNext(s, step))
    ensures Rivalled(PlainNext(s, step).kernel.place, s.kernel.running, Prio(s.kernel))
    ensures var n := PlainNext(s, step).kernel; n.running == s.kernel.running && n.place.prio == s.kernel.place.prio
  {
    hide K.Inv, K.Enabled, Highest, Rivalled, K.Rouse, K.Defer, K.Refresh, K.IsSuspended, K.IsBlocked, K.IncrementTick,
      K.ResumeAll, K.SwitchContext, Items, TickSwitches, ResumeSwitches, Waiting;
    var k := s.kernel;
    K.ReadiedWaits(k, step, t);
    K.InvIsTidy(k);
    RefreshedRival(k, t);
    if step.NotifyLate? {
      LateIsNotAbove(k, t);
    } else {
      WaitingIsNot(k, t);
      RousedIsRival(k, t);
      DeferRunner(k, t);
    }
  }

  lemma DeferRunner(k: K.State, t: Id)
    ensures K.Defer(k, t).running == k.running
  {
    hide ToPending;
  }

  lemma LateIsNotAbove(k: K.State, t: Id)
    requires K.Inv(k) && Highest(k) && t in k.place.prio && t in k.place.state.on && k.place.state.on[t].Ready?
    ensures k.place.prio[t] <= Prio(k)
  {
    hide InOrder, NonePending, AlwaysReady;
  }

  /** A task that has blocked is not ready. */
  lemma BlockedIsNotReady(k: K.State, step: K.Step)
    requires K.Inv(k) && K.Enabled(k, step)
    requires step.DelaySelf? || step.BlockOn? || step.BlockUnordered? || step.BlockRestricted? || step.AwaitNotice?
    ensures var n := K.Next(k, step);
            n.running == k.running && k.running in n.place.state.on && !n.place.state.on[k.running].Ready?
  {
    hide K.Inv, K.Enabled, Sound, Delay, BlockForever, JoinEvent, JoinUnordered, K.IncrementTick, K.ResumeAll,
      K.SwitchContext, Elsewhere;
    K.RunningMayBlock(k, step);
    K.InvIsSound(k);
    K.InvIsTidy(k);
    var wake := Plus(k.tick, step.w);
    DelayKeeps(k.place, k.running, wake, wake < k.tick);
    BlockForeverKeeps(k.place, k.running);
    match step
    case BlockOn(o, w) => JoinState(K.Wait(k, k.running, w).place, k.running, o, Key(k.place.prio[k.running]));
    case BlockUnordered(o, value, w) => JoinState(K.Wait(k, k.running, w).place, k.running, o, value);
    case BlockRestricted(o, w, forever) =>
      var d := if forever then K.Forever(k, k.running) else K.AddToDelayed(k, k.running, w);
      JoinState(d.place, k.running, o, Key(k.place.prio[k.running]));
    case _ =>
  }

  lemma JoinState(p: Place, t: Id, o: nat, value: nat)
    ensures JoinEvent(p, t, o, value).state == p.state && JoinUnordered(p, t, o, value).state == p.state
  {
    hide PutSorted, PutEnd;
  }

  lemma GoneIsNotReady(k: K.State, step: K.Step)
    requires K.Inv(k) && K.Enabled(k, step) && (step.SuspendTask? || step.Remove?) && step.t == k.running
    ensures var n := K.Next(k, step);
            n.running == k.running && !(k.running in n.place.state.on && n.place.state.on[k.running].Ready?)
  {
    hide InOrder, NonePending, AlwaysReady, Elsewhere, Suspend, Delete, DL.HeadTime, Items;
    SuspendKeeps(k.place, k.running);
    DeleteKeeps(k.place, k.running, true);
  }

  lemma NewIsRival(k: K.State, t: Id, prio: nat)
    requires K.Inv(k) && t !in k.place.prio && prio > Prio(k)
    ensures var n := K.CreateTask(k, t, prio);
            && Rivalled(n.place, k.running, Prio(k)) && n.running == k.running
            && k.running in n.place.prio && n.place.prio[k.running] == Prio(k)
  {
    hide InOrder, NonePending, AlwaysReady, Elsewhere, Create, Rivalled;
    CreateKeeps(k.place, t, prio);
    K.CreateFrame(k.place, t, prio);
    ReadyRival(K.CreateTask(k, t, prio).place, k.running, Prio(k), t);
  }

  lemma PlainHasReason(s: System, step: K.Step)
    requires K.Inv(s.kernel) && K.Enabled(s.kernel, step) && !step.SetPriority?
    requires Highest(s.kernel) && !Owed(s) && Owed(PlainNext(s, step)) && K.Inv(PlainNext(s, step).kernel)
    ensures HasReason(s, Plain(step), PlainNext(s, step))
  {
    hide K.Inv, K.Enabled, K.Next, Highest, TickSwitches, ResumeSwitches, K.IsSuspended, K.IsBlocked, Items,
      Rivalled, HeadAbove;
    var k := s.kernel;
    PlainKernel(s, step);
    K.InvIsTidy(k);
    K.InvIsTidy(PlainNext(s, step).kernel);
    if step.Tick? || step.Lock? || step.Resume? || step.SkipTicks? {
      CountingHasReason(s, step);
    } else if step.DelaySelf? || step.BlockOn? || step.BlockUnordered? || step.BlockRestricted? || step.AwaitNotice? {
      BlockedIsNotReady(k, step);
    } else if step.SuspendTask? || step.Remove? {
      GoneIsNotReady(k, step);
    } else if step.New? {
      NewNext(k, step.t, step.prio);
      NewIsRival(k, step.t, step.prio);
    } else if step.Switch? || step.CleanUp? {
    } else if K.Readies(k, step, K.Readied(k, step)) {
      ReadyingHasReason(s, step, K.Readied(k, step));
    } else {
      NotReadiedNotOwed(s, step);
    }
  }

  lemma NewNext(k: K.State, t: Id, prio: nat)
    requires K.Inv(k) && K.Enabled(k, K.New(t, prio))
    ensures K.Next(k, K.New(t, prio)) == K.CreateTask(k, t, prio) && t !in k.place.prio
  {
    hide K.Inv, K.CreateTask;
  }

  lemma NotReadiedNotOwed(s: System, step: K.Step)
    requires K.Inv(s.kernel) && K.Enabled(s.kernel, step) && !Owed(s)
    requires !K.Readies(s.kernel, step, K.Readied(s.kernel, step))
    requires step.WakeHead? || step.WakeUnordered? || step.ResumeTask? || step.ResumeFromIsr? || step.Abort? ||
             step.Notify? || step.NotifyFromIsr? || step.NotifyLate?
    ensures !Owed(PlainNext(s, step))
  {
    hide K.Inv, K.Next, K.IsSuspended, K.IsBlocked, Items, HeadAbove, TickSwitches, ResumeSwitches;
  }

  lemma GiveHasReason(s: System, prio: nat, o: nat)
    requires K.Inv(s.kernel) && Enabled(s, Give(prio, o)) && !Owed(s) && Highest(s.kernel)
    requires Owed(Next(s, Give(prio, o))) && K.Inv(Next(s, Give(prio, o)).kernel)
    ensures HasReason(s, Give(prio, o), Next(s, Give(prio, o)))
  {
    hide K.Inv, Sound, Highest, Disinherited, Woken, Items, Rivalled, HeadAbove, Waiting;
    var k := s.kernel;
    K.InvIsTidy(k);
    DisinheritedFrame(k, prio);
    var d := Disinherited(k, prio);
    K.InvIsTidy(d);
    if Items(d.place.event, Event(o)) != [] {
      WokenFrame(d, o);
      WaitingIsNotReady(d.place.state.on[k.running], d.place.state.on[Items(d.place.event, Event(o))[0].who]);
      if HeadAbove(d, o) {
        WokenIsRival(d, o);
      }
    }
  }

  lemma WaitingIsNotReady(l: StateList, m: StateList)
    requires l.Ready? && Waiting(m)
    ensures l != m
  {
  }

  lemma WokenIsRival(d: K.State, o: nat)
    requires K.Inv(d) && Items(d.place.event, Event(o)) != [] && HeadAbove(d, o)
    ensures Items(d.place.event, Event(o))[0].who == d.running || Rivalled(Woken(d, o).place, d.running, Prio(d))
    ensures Woken(d, o).place.prio == d.place.prio && Woken(d, o).running == d.running
  {
    hide K.Inv, Sound, Rivalled, K.Rouse, K.Defer, K.Refresh, Items, Waiting;
    var t := Items(d.place.event, Event(o))[0].who;
    K.InvIsSound(d);
    K.InvIsTidy(d);
    EventHeadWaits(d.place, o);
    RefreshedRival(d, t);
    DeferRunner(d, t);
    if t != d.running {
      RousedIsRival(d, t);
    } else {
      RousedFrame(d, t);
    }
  }

  lemma RousedFrame(k: K.State, t: Id)
    requires t in k.place.prio
    ensures K.Rouse(k, t).place.prio == k.place.prio && K.Defer(k, t).place.prio == k.place.prio
  {
    hide TakeOff, PutEnd;
  }

  lemma ResetFrame(k: K.State, t: Id, prio: nat)
    requires K.Inv(k) && t in k.place.prio && t != k.idle
    ensures Reset(k, t, prio).place.prio == k.place.prio[t := prio] && Reset(k, t, prio).running == k.running
  {
    hide InOrder, ChangePriority, NonePending, AlwaysReady, Items;
    ChangePriorityKeeps(k.place, t, prio);
  }

  /** No switch is asked for without a reason: if none was owed and one is afterwards, the operation
      has given one of the reasons there are. */
  lemma OwedOnlyWithReason(s: System, op: Op)
    requires K.Inv(s.kernel) && Enabled(s, op) && K.Inv(Next(s, op).kernel)
    requires Highest(s.kernel) && !Owed(s) && Owed(Next(s, op))
    ensures HasReason(s, op, Next(s, op))
  {
    hide K.Inv, K.Enabled, Highest, PlainNext, HeadAbove, Disinherited, Woken, Reset, Items, Rivalled;
    var k := s.kernel;
    K.InvIsTidy(k);
    match op
    case Plain(step) => PlainHasReason(s, step);
    case PrioritySet(t, prio) => ResetFrame(k, t, prio);
    case Inherit(t) =>
    case AfterTimeout(t, prio) =>
    case Give(prio, o) => GiveHasReason(s, prio, o);
    case Yield =>
  }
}
