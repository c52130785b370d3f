/**
  The delayed lists of the kernel against unbounded time: through every kernel operation,
  however they are interleaved, they stay an agenda cut at the end of the epoch.
*/
module KernelTime {
  import opened Ticks
  import opened TimedLists
  import opened Boards
  import opened Placement
  import opened Priorities
  import opened Kernel
  import DL = DelayedLists

  // ---- What each change of place does to the delayed lists ----

  /** Taking a task off its list leaves the delayed lists without it. */
  lemma RouseLeaves(k: State, t: Id)
    requires Sound(k.place) && t in k.place.prio
    ensures View(Rouse(k, t)) == DL.Leave(View(k), t)
  {
    AwakenItems(k.place, t, Current(k.place));
    AwakenItems(k.place, t, Overflow(k.place));
    hide Sound, Without;
  }

  lemma RefreshRecomputes(k: State)
    ensures View(Refresh(k)) == DL.Recompute(View(k))
  {
    hide Items;
  }

  lemma SuspendLeaves(k: State, t: Id)
    requires Sound(k.place) && t in k.place.prio
    ensures View(SuspendTo(k, t)) == DL.Recompute(DL.Leave(View(k), t))
  {
    hide Without, TakeOff, InOrder;
    TakeOffItems(k.place.state, t, Current(k.place));
    TakeOffItems(k.place.state, t, Overflow(k.place));
    hide Sound;
  }

  lemma DiscardLeaves(k: State, t: Id, itself: bool)
    requires Sound(k.place) && t in k.place.prio
    ensures View(Discard(k, t, itself)) == DL.Leave(View(k), t)
  {
    hide Without, TakeOff, InOrder;
    TakeOffItems(k.place.state, t, Current(k.place));
    TakeOffItems(k.place.state, t, Overflow(k.place));
    hide Sound;
  }

  /** A task leaves with its deletion; the cached time is fresh unless it deletes itself. */
  lemma DeleteLeaves(k: State, t: Id)
    requires Sound(k.place) && t in k.place.prio
    ensures View(DeleteFrom(k, t)) ==
            if t == k.running then DL.Leave(View(k), t) else DL.Recompute(DL.Leave(View(k), t))
  {
    hide Sound, Discard, Refresh, View;
    DiscardLeaves(k, t, t == k.running);
    RefreshRecomputes(Discard(k, t, t == k.running));
  }

  /** Freeing what is on the termination list leaves the delayed lists alone. */
  lemma FreeSameView(k: State)
    requires Inv(k) && Items(k.place.state, Termination) != []
    ensures View(FreeDeleted(k)) == View(k)
  {
    DeletedIsNotIdle(k);
    ElsewhereNotDelayed(k.place, Items(k.place.state, Termination)[0].who);
    hide Inv, Sound, TakeOff;
  }

  /** What is on another list is on neither delayed list. */
  lemma ElsewhereNotDelayed(p: Place, t: Id)
    requires Sound(p) && t in p.state.on && p.state.on[t] != DelayedOne && p.state.on[t] != DelayedTwo
    ensures !Has(Items(p.state, Current(p)), t) && !Has(Items(p.state, Overflow(p)), t)
    ensures Items(TakeOff(p.state, t), Current(p)) == Items(p.state, Current(p))
    ensures Items(TakeOff(p.state, t), Overflow(p)) == Items(p.state, Overflow(p))
  {
    hide Without, IndexFrom, InOrder, TakeOff;
    TakeOffItems(p.state, t, Current(p));
    TakeOffItems(p.state, t, Overflow(p));
    OnExactlyOneList(p.state, Current(p), t);
    OnExactlyOneList(p.state, Overflow(p), t);
    NotThere(Items(p.state, Current(p)), t);
    NotThere(Items(p.state, Overflow(p)), t);
  }

  lemma ForeverSameView(k: State, t: Id)
    requires Sound(k.place) && t in k.place.state.on && k.place.state.on[t].Ready?
    ensures View(Forever(k, t)) == View(k)
  {
    ElsewhereNotDelayed(k.place, t);
    hide Sound, TakeOff;
  }

  lemma ReprioritiseSameView(k: State, t: Id, prio: nat)
    requires Sound(k.place) && t in k.place.prio
    ensures View(Reprioritise(k, t, prio)) == View(k)
  {
    if k.place.state.on[t].Ready? {
      ElsewhereNotDelayed(k.place, t);
    }
    hide Sound, TakeOff;
  }

  lemma AddToDelayedBlocks(k: State, t: Id, w: nat)
    requires Sound(k.place) && k.tick < N && w < N
    requires t in k.place.prio && t in k.place.state.on && k.place.state.on[t].Ready?
    ensures View(AddToDelayed(k, t, w)) == DL.Block(View(k), t, w)
  {
    hide InOrder, TakeOff, PutSorted, InsertSorted;
    var wake := Plus(k.tick, w);
    DelayItems(k.place, t, wake, wake < k.tick);
  }

  // ---- The agenda of a run ----

  /** A wait of w ticks, or for ever. */
  function AgendaWait(a: DL.Agenda, t: Id, w: nat): DL.Agenda {
    if w == MAX_DELAY then a else DL.BlockUntil(a, t, a.now + w)
  }

  /** How far vTaskStepTick moves the counter. */
  function Skipped(k: State, jump: nat): nat
    requires k.tick < N && CanStep(k, jump)
  {
    if Plus(k.tick, jump) == k.nextUnblock then jump - 1 else jump
  }

  /** What an operation means on unbounded time. */
  ghost function AgendaNext(k: State, s: Step, a: DL.Agenda): DL.Agenda
    requires Inv(k) && Enabled(k, s)
  {
    hide InOrder, AlwaysReady, NonePending, Items;
    match s
    case Tick => if k.locks == 0 then DL.TurnPage(a).0 else a
    case Resume => if k.locks == 1 then DL.Pages(DL.ForgetAll(a, Items(k.place.event, Pending)), k.pended) else a
    case DelaySelf(w) => DL.BlockUntil(a, k.running, a.now + w)
    case BlockOn(o, w) => AgendaWait(a, k.running, w)
    case BlockUnordered(o, value, w) => AgendaWait(a, k.running, w)
    case WakeHead(o) => if k.locks == 0 then DL.Forget(a, Items(k.place.event, Event(o))[0].who) else a
    case WakeUnordered(t) => DL.Forget(a, t)
    case SuspendTask(t) => DL.Forget(a, t)
    case ResumeTask(t) => if IsSuspended(k.place, t) then DL.Forget(a, t) else a
    case ResumeFromIsr(t) => if IsSuspended(k.place, t) && k.locks == 0 then DL.Forget(a, t) else a
    case Abort(t, notified) => if IsBlocked(k.place, t, notified) then DL.Forget(a, t) else a
    case Notify(t) => DL.Forget(a, t)
    case NotifyFromIsr(t) => if k.locks == 0 then DL.Forget(a, t) else a
    case NotifyLate(t, isr) => DL.Forget(a, t)
    case Remove(t) => DL.Forget(a, t)
    case BlockRestricted(o, w, forever) => if forever then a else DL.BlockUntil(a, k.running, a.now + w)
    case AwaitNotice(w) => AgendaWait(a, k.running, w)
    case SkipTicks(jump) => DL.Pages(a, Skipped(k, jump))
    case CleanUp => a
    case Lock => a
    case Switch => a
    case SetPriority(t, prio) => a
    case New(t, prio) => a
  }

  lemma TickOnceRefines(k: State, a: DL.Agenda)
    requires Sound(k.place) && k.tick < N && DL.Refines(View(k), a)
    ensures DL.Refines(View(TickOnce(k)), DL.TurnPage(a).0)
  {
    hide Sound, DL.Refines, TickOnce, View, DL.TurnPage, DL.Tick;
    TickOnceIsTick(k);
    ViewTick(k);
    DL.TickRefines(View(k), a);
  }

  lemma {:induction false} ManyTicksRefine(k: State, a: DL.Agenda, n: nat)
    requires Sound(k.place) && k.tick < N && DL.Refines(View(k), a)
    ensures DL.Refines(View(ManyTicks(k, n)), DL.Pages(a, n))
    decreases n
  {
    hide Sound, DL.Refines, TickOnce, View, DL.TurnPage;
    if n > 0 {
      TickOnceKeeps(k);
      TickOnceRefines(k, a);
      ManyTicksRefine(TickOnce(k), DL.TurnPage(a).0, n - 1);
    }
  }

  lemma ViewTick(k: State)
    ensures View(k).tick == k.tick
  {
  }

  lemma {:induction false} MovePendingRefines(k: State, a: DL.Agenda)
    requires Sound(k.place) && DL.Refines(View(k), a)
    ensures DL.Refines(View(k.(place := MovePending(k.place))), DL.ForgetAll(a, Items(k.place.event, Pending)))
    decreases |Items(k.place.event, Pending)|
  {
    hide Sound, DL.Refines, Awaken, View, DL.Forget, DL.Leave;
    var s := Items(k.place.event, Pending);
    if s != [] {
      PendingIsAlive(k.place);
      PendingShrinks(k.place);
      RouseLeaves(k, s[0].who);
      DL.LeaveRefines(View(k), a, s[0].who);
      assert Rouse(k, s[0].who) == k.(place := Awaken(k.place, s[0].who));
      MovePendingRefines(k.(place := Awaken(k.place, s[0].who)), DL.Forget(a, s[0].who));
    } else {
      assert k.(place := k.place) == k;
    }
  }

  lemma UnlockRefines(k: State, a: DL.Agenda)
    requires Sound(k.place) && DL.Refines(View(k), a)
    ensures DL.Refines(View(Unlock(k)), DL.ForgetAll(a, Items(k.place.event, Pending)))
  {
    hide Sound, DL.Refines, MovePending, Items;
    MovePendingRefines(k, a);
    var m := k.(place := MovePending(k.place));
    DL.RefreshRefines(View(m), DL.ForgetAll(a, Items(k.place.event, Pending)));
    assert View(Unlock(k)) == if Items(k.place.event, Pending) == [] then View(m) else DL.Recompute(View(m));
  }

  lemma ResumeRefines(k: State, a: DL.Agenda)
    requires Inv(k) && k.locks == 1 && DL.Refines(View(k), a)
    ensures DL.Refines(View(ResumeAll(k)), DL.Pages(DL.ForgetAll(a, Items(k.place.event, Pending)), k.pended))
  {
    hide Sound, DL.Refines, MovePending, Items, AlwaysReady, NonePending;
    UnlockRefines(k, a);
    MovePendingEmpties(k.place);
    ManyTicksRefine(Unlock(k), DL.ForgetAll(a, Items(k.place.event, Pending)), k.pended);
  }

  /** A ready task begins to wait. */
  lemma DelayRefines(k: State, a: DL.Agenda, t: Id, w: nat)
    requires Sound(k.place) && k.tick < N && DL.Refines(View(k), a) && DL.Holds(k.tick, w)
    requires t in k.place.prio && t in k.place.state.on && k.place.state.on[t].Ready?
    ensures DL.Refines(View(AddToDelayed(k, t, w)), DL.BlockUntil(a, t, a.now + w))
  {
    hide AddToDelayed, DL.BlockUntil, DL.Block, DL.Refines, InOrder;
    AddToDelayedBlocks(k, t, w);
    ElsewhereNotDelayed(k.place, t);
    hide Sound;
    NotOnAgenda(k, a, t);
    DL.BlockRefines(View(k), a, t, w);
  }

  lemma WaitRefines(k: State, a: DL.Agenda, t: Id, w: nat)
    requires Sound(k.place) && k.tick < N && DL.Refines(View(k), a) && DL.Holds(k.tick, w)
    requires t in k.place.prio && t in k.place.state.on && k.place.state.on[t].Ready?
    ensures DL.Refines(View(Wait(k, t, w)), AgendaWait(a, t, w))
  {
    hide Sound, View, AddToDelayed, Forever, DL.BlockUntil, DL.Refines;
    DelayRefines(k, a, t, w);
    ForeverSameView(k, t);
  }

  lemma NotOnAgenda(k: State, a: DL.Agenda, t: Id)
    requires DL.Refines(View(k), a)
    requires !Has(Items(k.place.state, Current(k.place)), t) && !Has(Items(k.place.state, Overflow(k.place)), t)
    ensures !Has(a.waiting, t)
  {
    hide DL.Tidy, Has, Items;
    DL.HasJoined(View(k), a, t);
  }

  /** Event lists are no matter of time. */
  lemma JoinSameView(k: State, t: Id, o: nat, value: nat)
    ensures View(Join(k, t, o, value)) == View(k)
    ensures View(JoinEnd(k, t, o, value)) == View(k)
    ensures View(Defer(k, t)) == View(k)
  {
    hide Items, PutEnd, PutSorted, TakeOff;
  }

  /** The running task begins to wait, and joins an event list of any kind. */
  lemma JoiningRefines(k: State, a: DL.Agenda, o: nat, value: nat, w: nat)
    requires Sound(k.place) && k.tick < N && DL.Refines(View(k), a) && DL.Holds(k.tick, w)
    requires k.running in k.place.prio && k.running in k.place.state.on && k.place.state.on[k.running].Ready?
    ensures DL.Refines(View(BlockOnEvent(k, o, w)), AgendaWait(a, k.running, w))
    ensures DL.Refines(View(BlockInGroup(k, o, value, w)), AgendaWait(a, k.running, w))
    ensures DL.Refines(View(BlockOnRestricted(k, o, w, false)), DL.BlockUntil(a, k.running, a.now + w))
  {
    assert w < N;
    hide Sound, View, DL.Refines, DL.Holds, Key, AgendaWait, DL.BlockUntil, Wait, AddToDelayed, Join, JoinEnd;
    var t := k.running;
    WaitRefines(k, a, t, w);
    DelayRefines(k, a, t, w);
    JoinSameView(Wait(k, t, w), t, o, Key(k.place.prio[t]));
    JoinSameView(Wait(k, t, w), t, o, value);
    JoinSameView(AddToDelayed(k, t, w), t, o, Key(k.place.prio[t]));
  }

  lemma JoiningForeverSameView(k: State, o: nat, w: nat)
    requires Sound(k.place) && k.tick < N && w < N
    requires k.running in k.place.prio && k.running in k.place.state.on && k.place.state.on[k.running].Ready?
    ensures View(BlockOnRestricted(k, o, w, true)) == View(k)
  {
    hide Sound, View, Key, Forever, JoinEnd;
    ForeverSameView(k, k.running);
    JoinSameView(Forever(k, k.running), k.running, o, Key(k.place.prio[k.running]));
  }

  lemma BlockingRefines(k: State, s: Step, a: DL.Agenda)
    requires Inv(k) && Enabled(k, s) && DL.Refines(View(k), a)
    requires s.DelaySelf? || s.BlockOn? || s.BlockUnordered? || s.BlockRestricted? || s.AwaitNotice?
    ensures DL.Refines(View(Next(k, s)), AgendaNext(k, s, a))
  {
    hide Inv, Enabled, Blockable, Sound, View, DL.Refines, DL.Holds, AgendaWait, DL.BlockUntil, Wait, AddToDelayed,
      BlockOnEvent, BlockInGroup, BlockOnRestricted, SwitchContext, IncrementTick, ResumeAll;
    RunningMayBlock(k, s);
    InvIsTidy(k);
    InvIsSound(k);
    match s
    case DelaySelf(w) => DelayRefines(k, a, k.running, w);
    case AwaitNotice(w) => WaitRefines(k, a, k.running, w);
    case BlockOn(o, w) => JoiningRefines(k, a, o, 0, w);
    case BlockUnordered(o, value, w) => JoiningRefines(k, a, o, value, w);
    case BlockRestricted(o, w, forever) =>
      if forever {
        JoiningForeverSameView(k, o, w);
      } else {
        JoiningRefines(k, a, o, 0, w);
      }
  }

  lemma RouseRefines(k: State, a: DL.Agenda, t: Id)
    requires Sound(k.place) && t in k.place.prio && DL.Refines(View(k), a)
    ensures DL.Refines(View(Rouse(k, t)), DL.Forget(a, t))
  {
    hide Sound, DL.Refines, Rouse, View;
    RouseLeaves(k, t);
    DL.LeaveRefines(View(k), a, t);
  }

  /** Computing the cached time afresh changes nothing on unbounded time. */
  lemma RefreshRefines(k: State, a: DL.Agenda)
    requires DL.Refines(View(k), a)
    ensures DL.Refines(View(Refresh(k)), a)
  {
    hide DL.Refines, View, Refresh;
    RefreshRecomputes(k);
    DL.RefreshRefines(View(k), a);
  }

  /** An event readies t now, or puts it on the pending-ready list. */
  lemma ReadyingRefines(k: State, s: Step, t: Id, a: DL.Agenda)
    requires Inv(k) && Enabled(k, s) && Readies(k, s, t) && DL.Refines(View(k), a)
    ensures DL.Refines(View(Next(k, s)), AgendaNext(k, s, a))
  {
    hide Inv, Enabled, Sound, View, DL.Refines, DL.Forget, Rouse, Defer, Refresh, SwitchContext, IncrementTick, ResumeAll;
    ReadiedWaits(k, s, t);
    InvIsSound(k);
    RefreshFrame(k);
    RouseRefines(k, a, t);
    JoinSameView(k, t, 0, 0);
    RefreshRefines(Rouse(k, t), DL.Forget(a, t));
    if s.WakeUnordered? {
      RefreshRefines(k, a);
      RouseRefines(Refresh(k), a, t);
    }
  }

  lemma LeavingRefines(k: State, a: DL.Agenda, t: Id)
    requires Sound(k.place) && t in k.place.prio && DL.Refines(View(k), a)
    ensures DL.Refines(View(SuspendTo(k, t)), DL.Forget(a, t))
    ensures DL.Refines(View(DeleteFrom(k, t)), DL.Forget(a, t))
  {
    hide Sound, DL.Refines, View, SuspendTo, DeleteFrom, DL.Forget, DL.Leave, DL.Recompute;
    SuspendLeaves(k, t);
    DeleteLeaves(k, t);
    DL.LeaveRefines(View(k), a, t);
    DL.RefreshRefines(DL.Leave(View(k), t), DL.Forget(a, t));
  }

  lemma SwitchSameView(k: State)
    requires Inv(k)
    ensures View(SwitchContext(k)) == View(k)
  {
    hide InOrder;
    LowerTopFinds(k.place);
    if k.locks == 0 {
      PickIsHighest(LowerTop(k.place));
    }
  }

  lemma NewSameView(k: State, t: Id, prio: nat)
    ensures View(CreateTask(k, t, prio)) == View(k)
  {
  }

  /** Skipped ticks are ticks on which nothing was due. */
  lemma SkippingRefines(k: State, jump: nat, a: DL.Agenda)
    requires k.tick + jump < N && CanStep(k, jump) && DL.Refines(View(k), a)
    ensures DL.Refines(View(StepTick(k, jump)), DL.Pages(a, Skipped(k, jump)))
  {
    hide DL.Refines, Items, DL.TickMany, DL.Pages;
    var n := Skipped(k, jump);
    DL.QuietTicks(View(k), n);
    DL.TicksRefine(View(k), a, n);
  }

  lemma CountingRefines(k: State, s: Step, a: DL.Agenda)
    requires Inv(k) && Enabled(k, s) && DL.Refines(View(k), a) && (s.Tick? || s.Lock? || s.Resume? || s.Switch?)
    ensures DL.Refines(View(Next(k, s)), AgendaNext(k, s, a))
  {
    hide DL.Refines, View, Inv, Sound, TickOnce, Unlock, ManyTicks, DL.ForgetAll, DL.Pages, DL.TurnPage, SwitchContext,
      DL.Tick, MovePending;
    InvIsSound(k);
    InvIsTidy(k);
    match s
    case Tick =>
      if k.locks == 0 {
        TickOnceIsTick(k);
        DL.TickRefines(View(k), a);
      } else {
        SameViewPended(k, k.pended + 1);
      }
    case Lock => SameViewLocks(k, k.locks + 1);
    case Resume =>
      if k.locks == 1 {
        ResumeRefines(k, a);
      } else {
        SameViewLocks(k, k.locks - 1);
      }
    case Switch => SwitchSameView(k);
  }

  lemma GoingRefines(k: State, s: Step, a: DL.Agenda)
    requires Inv(k) && Enabled(k, s) && DL.Refines(View(k), a) && (s.SuspendTask? || s.Remove?)
    ensures DL.Refines(View(Next(k, s)), AgendaNext(k, s, a))
  {
    hide Inv, Sound, View, DL.Refines, SuspendTo, DeleteFrom, DL.Forget, IncrementTick, ResumeAll, SwitchContext,
      DL.ForgetAll;
    InvIsSound(k);
    LeavingRefines(k, a, s.t);
  }

  /** Tasks come, change their priority or are freed: no wait begins or ends. */
  lemma StayingRefines(k: State, s: Step, a: DL.Agenda)
    requires Inv(k) && Enabled(k, s) && DL.Refines(View(k), a) && (s.SetPriority? || s.New? || s.CleanUp?)
    ensures DL.Refines(View(Next(k, s)), AgendaNext(k, s, a))
  {
    hide Inv, Sound, View, DL.Refines, Reprioritise, CreateTask, FreeDeleted, IncrementTick, ResumeAll, SwitchContext,
      DL.ForgetAll;
    InvIsSound(k);
    match s
    case SetPriority(t, prio) => ReprioritiseSameView(k, t, prio);
    case New(t, prio) => NewSameView(k, t, prio);
    case CleanUp => FreeSameView(k);
  }

  lemma SteppingRefines(k: State, jump: nat, a: DL.Agenda)
    requires Inv(k) && Enabled(k, SkipTicks(jump)) && DL.Refines(View(k), a)
    ensures DL.Refines(View(Next(k, SkipTicks(jump))), AgendaNext(k, SkipTicks(jump), a))
  {
    hide Inv, View, DL.Refines, StepTick, DL.Pages;
    SkippingRefines(k, jump, a);
  }

  /** Every operation does to the delayed lists what it means on unbounded time. */
  lemma NextRefines(k: State, s: Step, a: DL.Agenda)
    requires Inv(k) && Enabled(k, s) && DL.Refines(View(k), a)
    ensures DL.Refines(View(Next(k, s)), AgendaNext(k, s, a))
  {
    hide *;
    if s.Tick? || s.Lock? || s.Resume? || s.Switch? {
      CountingRefines(k, s, a);
    } else if s.DelaySelf? || s.BlockOn? || s.BlockUnordered? || s.BlockRestricted? || s.AwaitNotice? {
      BlockingRefines(k, s, a);
    } else if s.SuspendTask? || s.Remove? {
      GoingRefines(k, s, a);
    } else if s.SetPriority? || s.New? || s.CleanUp? {
      StayingRefines(k, s, a);
    } else if s.SkipTicks? {
      SteppingRefines(k, s.jump, a);
    } else {
      var t := Readied(k, s);
      if Readies(k, s, t) {
        ReadyingRefines(k, s, t, a);
      } else {
        NothingReadied(k, s, a);
      }
    }
  }

  lemma NothingReadied(k: State, s: Step, a: DL.Agenda)
    requires Inv(k) && Enabled(k, s) && !Readies(k, s, Readied(k, s))
    requires s.WakeHead? || s.WakeUnordered? || s.ResumeTask? || s.ResumeFromIsr? || s.Abort? || s.Notify? ||
             s.NotifyFromIsr? || s.NotifyLate?
    ensures Next(k, s) == k && AgendaNext(k, s, a) == a
  {
    hide Inv, Rouse, Refresh, Defer, WakeUp, IsSuspended, IsBlocked, DL.Forget;
  }

  lemma SameViewPended(k: State, n: nat)
    ensures View(k.(pended := n)) == View(k)
  {
  }

  lemma SameViewLocks(k: State, n: nat)
    ensures View(k.(locks := n)) == View(k)
  {
  }

  ghost function AgendaRun(k: State, steps: seq<Step>, a: DL.Agenda): DL.Agenda
    requires Inv(k) && Possible(k, steps)
    decreases |steps|
  {
    if steps == [] then a
    else
      NextKeeps(k, steps[0]);
      AgendaRun(Next(k, steps[0]), steps[1..], AgendaNext(k, steps[0], a))
  }

  lemma {:induction false} RunRefines(k: State, steps: seq<Step>, a: DL.Agenda)
    requires Inv(k) && Possible(k, steps) && DL.Refines(View(k), a)
    ensures DL.Refines(View(Run(k, steps)), AgendaRun(k, steps, a))
    decreases |steps|
  {
    hide Inv, Next, Enabled, DL.Refines, AgendaNext, View;
    if steps != [] {
      NextKeeps(k, steps[0]);
      NextRefines(k, steps[0], a);
      RunRefines(Next(k, steps[0]), steps[1..], AgendaNext(k, steps[0], a));
    }
  }

  /** The agenda at the start: nobody waits. */
  function Nothing(): (a: DL.Agenda)
    ensures a.now == 0 && |a.waiting| == 0
  {
    DL.Agenda(0, [])
  }

  /** The agenda at the end of a run. */
  ghost function AgendaOf(idle: Id, steps: seq<Step>): DL.Agenda
    requires PossibleFromStart(idle, steps)
  {
    StartInv(idle);
    AgendaRun(Start(idle), steps, Nothing())
  }

  /** Over every run of the kernel the two delayed lists are the agenda of the same run, both
      ascending, and the cached unblock time never exceeds the head of the current list, which is
      empty whenever the counter is about to come round. */
  lemma DelaysAreAlwaysTheAgenda(idle: Id, steps: seq<Step>) returns (a: DL.Agenda)
    requires PossibleFromStart(idle, steps)
    ensures a == AgendaOf(idle, steps)
    ensures var v := View(End(idle, steps));
            && DL.Refines(v, a)
            && Ascending(v.current) && Ascending(v.later)
            && v.nextUnblock <= DL.HeadTime(v.current)
            && (v.tick == N - 1 ==> v.current == [])
  {
    a := AgendaOf(idle, steps);
    EndRefines(idle, steps);
    hide *;
    var v := View(End(idle, steps));
    DL.BothListsAscend(v, a);
    CachedTime(v, a);
    if v.tick == N - 1 {
      DL.EmptyAtSwitch(v, a);
    }
  }

  lemma CachedTime(d: DL.Delays, a: DL.Agenda)
    requires DL.Refines(d, a)
    ensures d.nextUnblock <= DL.HeadTime(d.current)
  {
  }

  lemma EndRefines(idle: Id, steps: seq<Step>)
    requires PossibleFromStart(idle, steps)
    ensures DL.Refines(View(End(idle, steps)), AgendaOf(idle, steps))
  {
    hide Inv, View, Start, DL.Refines, Nothing;
    StartInv(idle);
    StartRefines(idle, Nothing());
    RunRefines(Start(idle), steps, Nothing());
  }

  lemma StartRefines(idle: Id, a: DL.Agenda)
    requires a.now == 0 && |a.waiting| == 0
    ensures DL.Refines(View(Start(idle)), a)
  {
    hide DL.Refines, View, Start, Abs;
    StartView(idle);
    DL.TimeZero(View(Start(idle)), a);
    DL.NothingRefines(View(Start(idle)), a);
  }

  lemma StartView(idle: Id)
    ensures var d := View(Start(idle));
            d.tick == 0 && d.overflows == 0 && d.nextUnblock == MAX_DELAY && |d.current| == 0 && |d.later| == 0
  {
  }
}
