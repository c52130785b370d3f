/**
  The order of event lists: as long as the priorities of waiters are left alone, an event list
  stands in the order of priorities, so that the head, which an event readies, is a
  highest-priority waiter.
*/
module EventOrder {
  import opened Ticks
  import opened TimedLists
  import opened Boards
  import opened Placement
  import opened EventLists
  import opened Kernel
  import opened Priorities

  lemma TickOrdered(k: State)
    requires Sound(k.place) && k.tick < N && ByPriority(k.place, MAX_PRIORITIES)
    ensures ByPriority(TickOnce(k).place, MAX_PRIORITIES)
  {
    hide Sound, ByPriority, ExpireAll;
    var tick := Plus(k.tick, 1);
    var p := if tick == 0 then k.place.(first := !k.place.first) else k.place;
    FlipKeeps(k.place);
    SameEvents(k.place, p, MAX_PRIORITIES);
    ExpireAllOrdered(p, tick, MAX_PRIORITIES);
  }

  lemma {:induction false} ManyTicksOrdered(k: State, n: nat)
    requires Sound(k.place) && k.tick < N && ByPriority(k.place, MAX_PRIORITIES)
    ensures ByPriority(ManyTicks(k, n).place, MAX_PRIORITIES)
    decreases n
  {
    hide Sound, ByPriority, TickOnce;
    if n > 0 {
      TickOnceKeeps(k);
      TickOrdered(k);
      ManyTicksOrdered(TickOnce(k), n - 1);
    }
  }

  lemma ResumeOrdered(k: State)
    requires Inv(k) && k.locks > 0 && ByPriority(k.place, MAX_PRIORITIES)
    ensures ByPriority(ResumeAll(k).place, MAX_PRIORITIES)
  {
    hide Sound, ByPriority, AlwaysReady, MovePending, ManyTicks;
    MovePendingOrdered(k.place, MAX_PRIORITIES);
    MovePendingEmpties(k.place);
    if k.locks == 1 {
      ManyTicksOrdered(Unlock(k), k.pended);
    }
  }

  lemma DeleteOrdered(p: Place, t: Id, itself: bool)
    requires Sound(p) && ByPriority(p, MAX_PRIORITIES) && t in p.prio
    ensures ByPriority(Delete(p, t, itself), MAX_PRIORITIES)
  {
    var m := p.(event := TakeOff(p.event, t), state := TakeOff(p.state, t));
    m := AddToReady(m, t);
    assert Awaken(p, t) == m;
    AwakenKeeps(p, t);
    AwakenOrdered(p, t, MAX_PRIORITIES);
    hide Sound, ByPriority, TakeOff, PutEnd;
    DeleteFrame(p, t, itself);
    PriorityOrdered(m, Delete(p, t, itself), t, MAX_PRIORITIES);
  }

  /** Runs in which the priority of a task that waits for an event is left alone; the lists that
      are not in the order of priority, those of event groups and of the timer task, are apart. */
  ghost predicate Plain(k: State, s: Step) {
    && !s.BlockUnordered? && !s.BlockRestricted?
    && (s.SetPriority? ==> s.t !in k.place.event.on && s.prio < MAX_PRIORITIES)
    && (s.New? ==> s.prio < MAX_PRIORITIES)
  }

  ghost predicate KnownPriorities(p: Place) {
    forall t :: t in p.prio ==> p.prio[t] < MAX_PRIORITIES
  }

  /** The event lists ascend, and every priority is below configMAX_PRIORITIES. */
  ghost predicate Arranged(p: Place) {
    ByPriority(p, MAX_PRIORITIES) && KnownPriorities(p)
  }

  lemma SameArranged(p: Place, q: Place)
    requires Arranged(p) && q.event == p.event && q.prio == p.prio
    ensures Arranged(q)
  {
    hide ByPriority;
    SameEvents(p, q, MAX_PRIORITIES);
  }

  lemma WaitArranged(k: State, t: Id, w: nat)
    requires k.tick < N && w < N && Arranged(k.place)
    ensures Arranged(AddToDelayed(k, t, w).place) && Arranged(Wait(k, t, w).place)
    ensures Wait(k, t, w).place.prio == k.place.prio
  {
    hide Arranged, TakeOff, PutSorted, PutEnd;
    SameArranged(k.place, AddToDelayed(k, t, w).place);
    SameArranged(k.place, Wait(k, t, w).place);
  }

  lemma BlockArranged(k: State, o: nat, w: nat)
    requires k.tick < N && w < N && Arranged(k.place) && k.running in k.place.prio
    ensures Arranged(BlockOnEvent(k, o, w).place)
  {
    hide ByPriority, Wait, JoinEvent;
    WaitArranged(k, k.running, w);
    JoinOrdered(Wait(k, k.running, w).place, k.running, o, MAX_PRIORITIES);
    JoinFrame(Wait(k, k.running, w).place, k.running, o, Key(k.place.prio[k.running]));
  }

  lemma JoinFrame(p: Place, t: Id, o: nat, key: nat)
    ensures JoinEvent(p, t, o, key).prio == p.prio
  {
    hide PutSorted;
  }

  lemma RouseArranged(k: State, t: Id)
    requires Sound(k.place) && t in k.place.prio && Arranged(k.place)
    ensures Arranged(Rouse(k, t).place) && Arranged(Defer(k, t).place)
  {
    hide Sound, ByPriority, Awaken, ToPending;
    AwakenOrdered(k.place, t, MAX_PRIORITIES);
    AwakenFrame(k.place, t);
    ToPendingOrdered(k.place, t, MAX_PRIORITIES);
    ToPendingFrame(k.place, t);
  }

  lemma ReadyingArranged(k: State, s: Step, t: Id)
    requires Inv(k) && Enabled(k, s) && Readies(k, s, t) && Arranged(k.place)
    ensures Arranged(Next(k, s).place)
  {
    hide Inv, Enabled, Arranged, Rouse, Defer, Refresh, IsSuspended, IsBlocked, IncrementTick, ResumeAll, SwitchContext;
    ReadiedWaits(k, s, t);
    InvIsSound(k);
    RouseArranged(k, t);
    RefreshFrame(k);
    RefreshFrame(Rouse(k, t));
    RouseArranged(Refresh(k), t);
  }

  lemma {:induction false} ManyTicksPriorities(k: State, n: nat)
    requires Sound(k.place) && k.tick < N
    ensures ManyTicks(k, n).place.prio == k.place.prio
    decreases n
  {
    hide Sound, TickOnce;
    if n > 0 {
      TickOnceKeeps(k);
      ManyTicksPriorities(TickOnce(k), n - 1);
    }
  }

  lemma TickArranged(k: State)
    requires Sound(k.place) && k.tick < N && Arranged(k.place)
    ensures Arranged(IncrementTick(k).place)
  {
    hide Sound, ByPriority, TickOnce;
    TickOrdered(k);
    TickOnceKeeps(k);
  }

  lemma ResumeArranged(k: State)
    requires Inv(k) && k.locks > 0 && Arranged(k.place)
    ensures Sound(k.place) && k.tick < N && Arranged(ResumeAll(k).place)
  {
    hide Inv, Sound, ByPriority, MovePending, ManyTicks;
    InvIsSound(k);
    InvIsTidy(k);
    ResumeOrdered(k);
    MovePendingEmpties(k.place);
    if k.locks == 1 {
      ManyTicksPriorities(Unlock(k), k.pended);
    }
  }

  lemma SwitchArranged(k: State)
    requires Sound(k.place) && Arranged(k.place)
    ensures Arranged(SwitchContext(k).place)
  {
    hide Sound, Arranged, LowerTop;
    LowerTopFinds(k.place);
    SameArranged(k.place, SwitchContext(k).place);
  }

  lemma CountingArranged(k: State, s: Step)
    requires Inv(k) && Enabled(k, s) && Arranged(k.place) && (s.Tick? || s.Lock? || s.Resume? || s.Switch?)
    ensures Arranged(Next(k, s).place)
  {
    hide Inv, Sound, Arranged, IncrementTick, ResumeAll, SwitchContext;
    InvIsSound(k);
    InvIsTidy(k);
    match s
    case Tick => TickArranged(k);
    case Lock =>
    case Resume => ResumeArranged(k);
    case Switch => SwitchArranged(k);
  }

  lemma SuspendArranged(k: State, t: Id)
    requires Sound(k.place) && Arranged(k.place)
    ensures Arranged(SuspendTo(k, t).place)
  {
    hide Sound, ByPriority, Suspend, OnDelayed;
    SuspendOrdered(k.place, t, MAX_PRIORITIES);
    SuspendFrame(k.place, t);
  }

  lemma DiscardArranged(k: State, t: Id, itself: bool)
    requires Sound(k.place) && Arranged(k.place) && t in k.place.prio
    ensures Arranged(Discard(k, t, itself).place) && Arranged(Refresh(Discard(k, t, itself)).place)
  {
    hide Sound, ByPriority, Delete, OnDelayed;
    DeleteOrdered(k.place, t, itself);
    DeleteFrame(k.place, t, itself);
  }

  lemma ReprioritiseArranged(k: State, t: Id, prio: nat)
    requires Sound(k.place) && Arranged(k.place) && t in k.place.prio && t !in k.place.event.on && prio < MAX_PRIORITIES
    ensures Arranged(Reprioritise(k, t, prio).place)
  {
    hide Sound, ByPriority, ChangePriority;
    ChangePriorityEvents(k.place, t, prio);
    ChangePriorityKeeps(k.place, t, prio);
    PriorityOrdered(k.place, ChangePriority(k.place, t, prio), t, MAX_PRIORITIES);
  }

  lemma CreateArranged(k: State, t: Id, prio: nat)
    requires Sound(k.place) && Arranged(k.place) && t !in k.place.prio && prio < MAX_PRIORITIES
    ensures Arranged(CreateTask(k, t, prio).place)
  {
    hide ByPriority, Create, InOrder;
    CreateFrame(k.place, t, prio);
    PriorityOrdered(k.place, Create(k.place, t, prio), t, MAX_PRIORITIES);
  }

  lemma MovingArranged(k: State, s: Step)
    requires Inv(k) && Enabled(k, s) && Plain(k, s) && Arranged(k.place)
    requires s.SuspendTask? || s.SetPriority? || s.New? || s.Remove? || s.CleanUp? || s.SkipTicks?
    ensures Arranged(Next(k, s).place)
  {
    hide Inv, Sound, Arranged, SuspendTo, Reprioritise, CreateTask, Discard, Refresh, StepTick, IncrementTick, ResumeAll,
      SwitchContext;
    InvIsSound(k);
    match s
    case SuspendTask(t) => SuspendArranged(k, t);
    case SetPriority(t, prio) => ReprioritiseArranged(k, t, prio);
    case New(t, prio) => CreateArranged(k, t, prio);
    case Remove(t) => DiscardArranged(k, t, t == k.running);
    case CleanUp =>
      DeletedIsNotIdle(k);
      DiscardArranged(k, Items(k.place.state, Termination)[0].who, false);
    case SkipTicks(jump) =>
  }

  lemma BlockingArranged(k: State, s: Step)
    requires Inv(k) && Enabled(k, s) && Arranged(k.place) && (s.DelaySelf? || s.BlockOn? || s.AwaitNotice?)
    ensures Arranged(Next(k, s).place)
  {
    hide Inv, Enabled, Arranged, Wait, AddToDelayed, BlockOnEvent, IncrementTick, ResumeAll, SwitchContext;
    RunningMayBlock(k, s);
    InvIsTidy(k);
    WaitArranged(k, k.running, s.w);
    if s.BlockOn? {
      BlockArranged(k, s.o, s.w);
    }
  }

  /** Every kernel operation keeps the event lists in order. */
  lemma NextArranged(k: State, s: Step)
    requires Inv(k) && Enabled(k, s) && Plain(k, s) && Arranged(k.place)
    ensures Arranged(Next(k, s).place)
  {
    hide Inv, Arranged;
    if s.Tick? || s.Lock? || s.Resume? || s.Switch? {
      CountingArranged(k, s);
    } else if s.DelaySelf? || s.BlockOn? || s.AwaitNotice? {
      BlockingArranged(k, s);
    } else if s.SuspendTask? || s.SetPriority? || s.New? || s.Remove? || s.CleanUp? || s.SkipTicks? {
      MovingArranged(k, s);
    } else if Readies(k, s, Readied(k, s)) {
      ReadyingArranged(k, s, Readied(k, s));
    }
  }

  ghost predicate PlainRun(k: State, steps: seq<Step>)
    requires Inv(k) && Possible(k, steps)
    decreases |steps|
  {
    steps == [] ||
    (Plain(k, steps[0]) && (NextKeeps(k, steps[0]); PlainRun(Next(k, steps[0]), steps[1..])))
  }

  lemma {:induction false} RunArranged(k: State, steps: seq<Step>)
    requires Inv(k) && Possible(k, steps) && PlainRun(k, steps) && Arranged(k.place)
    ensures Arranged(Run(k, steps).place)
    decreases |steps|
  {
    hide Inv, Next, Enabled, Plain, Arranged;
    if steps != [] {
      NextKeeps(k, steps[0]);
      NextArranged(k, steps[0]);
      RunArranged(Next(k, steps[0]), steps[1..]);
    }
  }

  /** Over every run that leaves the priorities of waiters alone, the task an event readies, the
      head of its list, has the highest priority of all that wait for it. */
  lemma EventsReadyTheHighest(idle: Id, steps: seq<Step>, o: nat, u: Id)
    requires PossibleFromStart(idle, steps)
    requires Inv(Start(idle)) && Possible(Start(idle), steps) && PlainRun(Start(idle), steps)
    requires var p := End(idle, steps).place;
             OnEvent(p, o) != [] && u in p.event.on && p.event.on[u] == Event(o)
    ensures var p := End(idle, steps).place;
            u in p.prio && OnEvent(p, o)[0].who in p.prio && p.prio[u] <= p.prio[OnEvent(p, o)[0].who]
  {
    hide Start, Inv, ByPriority, Sound;
    StartArranged(idle);
    RunArranged(Start(idle), steps);
    InvIsSound(End(idle, steps));
    HeadIsHighest(End(idle, steps).place, o, u, MAX_PRIORITIES);
  }

  lemma StartArranged(idle: Id)
    ensures Arranged(Start(idle).place)
  {
  }
}
