/**
  Where every task is after every operation, on maps alone: which state list names it, which event
  list if any, and its priority. The lists with all their items do what the maps say.
*/
module Whereabouts {
  import opened Ticks
  import opened TimedLists
  import opened Boards
  import opened Placement
  import opened Priorities
  import opened Kernel
  import DL = DelayedLists

  datatype Map = Map(on: map<Id, StateList>, events: map<Id, EventList>, prio: map<Id, nat>)

  function MapOf(p: Place): Map {
    Map(p.state.on, p.event.on, p.prio)
  }

  function Less<T>(m: map<Id, T>, t: Id): map<Id, T> {
    map u | u in m && u != t :: m[u]
  }

  /** On a state list, and off its event list. */
  function Moved(m: Map, t: Id, l: StateList): Map {
    m.(on := m.on[t := l], events := Less(m.events, t))
  }

  function Readied(m: Map, t: Id): Map {
    if t in m.prio then Moved(m, t, Ready(m.prio[t])) else m
  }

  function Gone(m: Map, t: Id): Map {
    Map(Less(m.on, t), Less(m.events, t), Less(m.prio, t))
  }

  /** The list of a wait of w ticks: of this epoch, of the next one, or none. */
  function DelayList(k: State, w: nat): StateList {
    if k.tick + w < N then Current(k.place) else Overflow(k.place)
  }

  function WaitList(k: State, w: nat): StateList {
    if w == MAX_DELAY then Suspended else DelayList(k, w)
  }

  /** An interrupt does not ready while the scheduler is suspended. */
  predicate Deferred(k: State, s: Step) {
    k.locks > 0 && (s.WakeHead? || s.ResumeFromIsr? || s.NotifyFromIsr?)
  }

  /** What an operation other than a tick or the resume of the scheduler does. */
  ghost function Expected(k: State, s: Step): Map {
    var m, r := MapOf(k.place), k.running;
    match s
    case DelaySelf(w) => m.(on := m.on[r := DelayList(k, w)])
    case AwaitNotice(w) => m.(on := m.on[r := WaitList(k, w)])
    case BlockOn(o, w) => m.(on := m.on[r := WaitList(k, w)], events := m.events[r := Event(o)])
    case BlockUnordered(o, value, w) => m.(on := m.on[r := WaitList(k, w)], events := m.events[r := Event(o)])
    case BlockRestricted(o, w, forever) =>
      m.(on := m.on[r := if forever then Suspended else DelayList(k, w)], events := m.events[r := Event(o)])
    case SuspendTask(t) => Moved(m, t, Suspended)
    case SetPriority(t, prio) =>
      m.(prio := m.prio[t := prio], on := if t in m.on && m.on[t].Ready? then m.on[t := Ready(prio)] else m.on)
    case New(t, prio) => m.(prio := m.prio[t := prio], on := m.on[t := Ready(prio)])
    case Remove(t) => if t == r then Moved(m, t, Termination) else Gone(m, t)
    case CleanUp => if Items(k.place.state, Termination) != [] then Gone(m, Items(k.place.state, Termination)[0].who) else m
    case _ =>
      if !Readies(k, s, Kernel.Readied(k, s)) then m
      else if Deferred(k, s) then m.(events := m.events[Kernel.Readied(k, s) := Pending])
      else Readied(m, Kernel.Readied(k, s))
  }

  // ---- From moves to maps ----

  lemma MovedOn<L>(b: Board<L>, c: Board<L>, t: Id, l: L)
    requires OthersStay(b, c, t) && t in c.on && c.on[t] == l
    ensures c.on == b.on[t := l]
  {
  }

  lemma GoneOn<L>(b: Board<L>, c: Board<L>, t: Id)
    requires OthersStay(b, c, t) && t !in c.on
    ensures c.on == Less(b.on, t)
  {
  }

  lemma LessNothing<T>(m: map<Id, T>, t: Id)
    requires t !in m
    ensures Less(m, t) == m
  {
  }

  lemma AwakenMap(p: Place, t: Id)
    requires Sound(p) && t in p.prio
    ensures MapOf(Awaken(p, t)) == Readied(MapOf(p), t)
  {
    hide Sound, Awaken, OthersStay, Less;
    AwakenKeeps(p, t);
    AwakenFrame(p, t);
    MovedOn(p.state, Awaken(p, t).state, t, Ready(p.prio[t]));
    GoneOn(p.event, Awaken(p, t).event, t);
  }

  lemma PendingMap(p: Place, t: Id)
    requires Sound(p) && t in p.state.on && Waiting(p.state.on[t])
    ensures MapOf(ToPending(p, t)) == MapOf(p).(events := p.event.on[t := Pending])
  {
    hide Sound, ToPending, OthersStay;
    ToPendingKeeps(p, t);
    ToPendingFrame(p, t);
    MovedOn(p.event, ToPending(p, t).event, t, Pending);
  }

  lemma SuspendMap(p: Place, t: Id)
    requires Sound(p) && t in p.prio
    ensures MapOf(Suspend(p, t)) == Moved(MapOf(p), t, Suspended)
  {
    hide Sound, Suspend, OthersStay, Less;
    SuspendKeeps(p, t);
    SuspendFrame(p, t);
    MovedOn(p.state, Suspend(p, t).state, t, Suspended);
    GoneOn(p.event, Suspend(p, t).event, t);
  }

  lemma DeleteMap(p: Place, t: Id, itself: bool)
    requires Sound(p) && t in p.prio
    ensures MapOf(Delete(p, t, itself)) == if itself then Moved(MapOf(p), t, Termination) else Gone(MapOf(p), t)
  {
    hide InOrder, TakeOff, PutEnd, OthersStay;
    SoundIsValid(p);
    TakenOff(p.state, t);
    TakenOff(p.event, t);
    MovedToEnd(p.state, Termination, Entry(t, 0));
    MovedOn(p.state, PutEnd(TakeOff(p.state, t), Termination, Entry(t, 0)), t, Termination);
    GoneOn(p.state, TakeOff(p.state, t), t);
    GoneOn(p.event, TakeOff(p.event, t), t);
  }

  lemma PriorityMap(p: Place, t: Id, prio: nat)
    requires Sound(p) && t in p.prio
    ensures t in p.state.on
    ensures MapOf(ChangePriority(p, t, prio)) ==
            Map(if p.state.on[t].Ready? then p.state.on[t := Ready(prio)] else p.state.on, p.event.on, p.prio[t := prio])
  {
    hide InOrder, ChangePriority, OthersStay;
    ChangePriorityKeeps(p, t, prio);
    ChangePriorityEvents(p, t, prio);
    MovedOn(p.state, ChangePriority(p, t, prio).state, t, ChangePriority(p, t, prio).state.on[t]);
    hide Sound;
    SameAt(p.state.on, t);
  }

  lemma SameAt<T>(m: map<Id, T>, t: Id)
    ensures t in m ==> m[t := m[t]] == m
  {
  }

  lemma CreateMap(p: Place, t: Id, prio: nat)
    requires Sound(p) && t !in p.prio
    ensures MapOf(Create(p, t, prio)) == Map(p.state.on[t := Ready(prio)], p.event.on, p.prio[t := prio])
  {
    hide Sound, Create, OthersStay;
    CreateKeeps(p, t, prio);
    CreateFrame(p, t, prio);
    MovedOn(p.state, Create(p, t, prio).state, t, Ready(prio));
  }

  lemma WaitMap(k: State, t: Id, w: nat)
    requires Sound(k.place) && t in k.place.prio && k.tick < N && w < N
    ensures MapOf(AddToDelayed(k, t, w).place) == MapOf(k.place).(on := k.place.state.on[t := DelayList(k, w)])
    ensures MapOf(Forever(k, t).place) == MapOf(k.place).(on := k.place.state.on[t := Suspended])
  {
    hide Sound, Delay, BlockForever, OthersStay;
    var wake := Plus(k.tick, w);
    DelayKeeps(k.place, t, wake, wake < k.tick);
    BlockForeverKeeps(k.place, t);
    StillThere(k.place, t, wake, wake < k.tick);
    MovedOn(k.place.state, Delay(k.place, t, wake, wake < k.tick).state, t, DelayList(k, w));
    MovedOn(k.place.state, BlockForever(k.place, t).state, t, Suspended);
  }

  lemma StillThere(p: Place, t: Id, value: nat, later: bool)
    ensures Delay(p, t, value, later).event == p.event && Delay(p, t, value, later).prio == p.prio
    ensures BlockForever(p, t).event == p.event && BlockForever(p, t).prio == p.prio
  {
    hide TakeOff, PutSorted, PutEnd;
  }

  lemma JoinMap(d: State, t: Id, o: nat, value: nat)
    requires Sound(d.place) && t in d.place.state.on && Waiting(d.place.state.on[t]) && t !in d.place.event.on
    ensures MapOf(Join(d, t, o, value).place) == MapOf(d.place).(events := d.place.event.on[t := Event(o)])
    ensures MapOf(JoinEnd(d, t, o, value).place) == MapOf(d.place).(events := d.place.event.on[t := Event(o)])
  {
    hide Sound, JoinEvent, JoinUnordered, OthersStay, Waiting;
    JoinEventKeeps(d.place, t, o, value);
    JoinUnorderedKeeps(d.place, t, o, value);
    JoinedStill(d.place, t, o, value);
    MovedOn(d.place.event, JoinEvent(d.place, t, o, value).event, t, Event(o));
    MovedOn(d.place.event, JoinUnordered(d.place, t, o, value).event, t, Event(o));
  }

  lemma JoinedStill(p: Place, t: Id, o: nat, value: nat)
    ensures JoinEvent(p, t, o, value).state == p.state && JoinEvent(p, t, o, value).prio == p.prio
    ensures JoinUnordered(p, t, o, value).state == p.state && JoinUnordered(p, t, o, value).prio == p.prio
  {
    hide PutSorted, PutEnd;
  }

  // ---- Every operation ----

  lemma BlockingMap(k: State, s: Step)
    requires Inv(k) && Enabled(k, s)
    requires s.DelaySelf? || s.BlockOn? || s.BlockUnordered? || s.BlockRestricted? || s.AwaitNotice?
    ensures MapOf(Next(k, s).place) == Expected(k, s)
  {
    hide Inv, Enabled, Sound, AddToDelayed, Forever, Join, JoinEnd, IncrementTick, ResumeAll, SwitchContext, Waits,
      Blockable, DelayList, Key, Waiting;
    var r := k.running;
    InvIsSound(k);
    InvIsTidy(k);
    RunningMayBlock(k, s);
    WaitMap(k, r, s.w);
    if !s.DelaySelf? && !s.AwaitNotice? {
      JoiningMap(k, s);
    }
  }

  lemma JoiningMap(k: State, s: Step)
    requires Inv(k) && Enabled(k, s) && (s.BlockOn? || s.BlockUnordered? || s.BlockRestricted?)
    ensures MapOf(Next(k, s).place) == Expected(k, s)
  {
    hide Inv, Enabled, Sound, AddToDelayed, Forever, Join, JoinEnd, IncrementTick, ResumeAll, SwitchContext, DelayList, Key;
    var r := k.running;
    InvIsSound(k);
    InvIsTidy(k);
    RunningMayBlock(k, s);
    WaitMap(k, r, s.w);
    WaitInv(k, r, s.w);
    DelayInv(k, r, s.w);
    ForeverInv(k, r);
    NotWaiting(k, r);
    match s
    case BlockOn(o, w) => InvIsSound(Wait(k, r, w)); JoinMap(Wait(k, r, w), r, o, Key(k.place.prio[r]));
    case BlockUnordered(o, value, w) => InvIsSound(Wait(k, r, w)); JoinMap(Wait(k, r, w), r, o, value);
    case BlockRestricted(o, w, forever) =>
      var d := if forever then Forever(k, r) else AddToDelayed(k, r, w);
      InvIsSound(d);
      JoinMap(d, r, o, Key(k.place.prio[r]));
  }

  lemma NotWaiting(k: State, t: Id)
    requires Inv(k) && t in k.place.state.on && k.place.state.on[t].Ready?
    ensures t !in k.place.event.on
  {
    hide InOrder, AlwaysReady, NonePending;
  }

  lemma ReadyingMap(k: State, s: Step, t: Id)
    requires Inv(k) && Enabled(k, s) && Readies(k, s, t)
    ensures MapOf(Next(k, s).place) == Expected(k, s)
  {
    hide Inv, Enabled, Sound, Awaken, ToPending, IsSuspended, IsBlocked, IncrementTick, ResumeAll, SwitchContext,
      Items, Less, DL.HeadTime, Waiting;
    ReadiedWaits(k, s, t);
    InvIsSound(k);
    AwakenMap(k.place, t);
    if !s.NotifyLate? {
      PendingMap(k.place, t);
    }
  }

  lemma GoingMap(k: State, s: Step)
    requires Inv(k) && Enabled(k, s)
    requires s.SuspendTask? || s.Remove? || s.SetPriority? || s.New? || s.CleanUp?
    ensures MapOf(Next(k, s).place) == Expected(k, s)
  {
    hide Inv, Sound, Suspend, Delete, ChangePriority, Create, DL.HeadTime, Items, Less, IncrementTick, ResumeAll,
      SwitchContext, Wait, AddToDelayed, Rouse, Defer, BlockOnEvent, BlockInGroup, BlockOnRestricted, StepTick,
      WaitList, DelayList;
    InvIsSound(k);
    match s
    case SuspendTask(t) => SuspendMap(k.place, t);
    case SetPriority(t, prio) => PriorityMap(k.place, t, prio);
    case New(t, prio) => CreateMap(k.place, t, prio);
    case Remove(t) => DeleteMap(k.place, t, t == k.running);
    case CleanUp =>
      DeletedIsNotIdle(k);
      DeleteMap(k.place, Items(k.place.state, Termination)[0].who, false);
  }

  /** Every operation but a tick and a resume of the scheduler moves exactly the task it is about,
      to exactly the lists the maps say. */
  lemma NextIsExpected(k: State, s: Step)
    requires Inv(k) && Enabled(k, s) && !s.Tick? && !s.Resume?
    ensures MapOf(Next(k, s).place) == Expected(k, s)
  {
    hide Inv, Enabled, Readies, Kernel.Readied, Less, DelayList, WaitList, SwitchContext, StepTick, Items;
    if s.DelaySelf? || s.BlockOn? || s.BlockUnordered? || s.BlockRestricted? || s.AwaitNotice? {
      BlockingMap(k, s);
    } else if s.SuspendTask? || s.Remove? || s.SetPriority? || s.New? || s.CleanUp? {
      GoingMap(k, s);
    } else if s.Switch? {
      SwitchMap(k);
    } else if Readies(k, s, Kernel.Readied(k, s)) {
      ReadyingMap(k, s, Kernel.Readied(k, s));
    } else {
      RestMap(k, s);
    }
  }

  lemma RestMap(k: State, s: Step)
    requires Inv(k) && Enabled(k, s) && !Readies(k, s, Kernel.Readied(k, s))
    requires s.Lock? || s.SkipTicks? || s.WakeHead? || s.WakeUnordered? || s.ResumeTask? || s.ResumeFromIsr? ||
             s.Abort? || s.Notify? || s.NotifyFromIsr? || s.NotifyLate?
    ensures MapOf(Next(k, s).place) == MapOf(k.place)
  {
    hide Inv, Rouse, Defer, Refresh, IsSuspended, IsBlocked, Items;
  }

  lemma SwitchMap(k: State)
    requires Inv(k)
    ensures Sound(k.place) && MapOf(SwitchContext(k).place) == MapOf(k.place)
    ensures Enabled(k, Switch) && Next(k, Switch) == SwitchContext(k) && !Readies(k, Switch, Kernel.Readied(k, Switch))
  {
    hide Sound, LowerTop, AlwaysReady, NonePending;
    LowerTopFinds(k.place);
    if k.locks == 0 {
      SwitchPicksHighest(k);
    }
  }

  // ---- Who counts as suspended, and who as blocked ----

  /** A task is taken for suspended after it has been suspended, and not while it waits for an event
      or a time, or is pending; a task that waits for a notification without a timeout is taken
      for suspended too, though it is blocked. */
  lemma SuspendedOrBlocked(k: State, s: Step, t: Id)
    requires Inv(k) && Enabled(k, s)
    ensures var p := Next(k, s).place;
            && (s.SuspendTask? && s.t == t ==> IsSuspended(p, t) && !IsBlocked(p, t, false))
            && (s.BlockOn? || s.BlockUnordered? || s.BlockRestricted? || s.DelaySelf? ==>
                  !IsSuspended(p, k.running) && IsBlocked(p, k.running, false))
            && (s.AwaitNotice? ==> IsBlocked(p, k.running, true) && (IsSuspended(p, k.running) <==> s.w == MAX_DELAY))
            && (Readies(k, s, t) ==> !IsSuspended(p, t))
            && (Readies(k, s, t) && !Deferred(k, s) ==> !IsBlocked(p, t, true))
  {
    hide Inv, Next, Enabled, Readies, Items, Kernel.Readied, IsSuspended, IsBlocked, Deferred;
    if s.BlockOn? || s.BlockUnordered? || s.BlockRestricted? || s.DelaySelf? || s.AwaitNotice? {
      BlockedNow(k, s);
      NotReadying(k, s, t);
    } else if Readies(k, s, t) {
      ReadiedNow(k, s, t);
      ReadyingOf(k, s, t);
    } else if s.SuspendTask? {
      SuspendedNow(k, s);
    }
  }

  lemma BlockedNow(k: State, s: Step)
    requires Inv(k) && Enabled(k, s)
    requires s.DelaySelf? || s.BlockOn? || s.BlockUnordered? || s.BlockRestricted? || s.AwaitNotice?
    ensures var p, r := Next(k, s).place, k.running;
            && (!s.AwaitNotice? ==> !IsSuspended(p, r) && IsBlocked(p, r, false))
            && (s.AwaitNotice? ==> IsBlocked(p, r, true) && (IsSuspended(p, r) <==> s.w == MAX_DELAY))
  {
    hide Inv, Next, Enabled;
    NextIsExpected(k, s);
    RunnerIsOff(k, s);
  }

  lemma ReadiedNow(k: State, s: Step, t: Id)
    requires Inv(k) && Enabled(k, s) && Readies(k, s, t)
    ensures var p := Next(k, s).place; !IsSuspended(p, t) && (!Deferred(k, s) ==> !IsBlocked(p, t, true))
  {
    hide Inv, Next, Enabled, Readies, Kernel.Readied, Items, Expected, Deferred, Readied;
    ReadyingOf(k, s, t);
    NextIsExpected(k, s);
    ReadiedWaits(k, s, t);
    ReadyingExpected(k, s, t);
    ReadiedOn(MapOf(k.place), t);
  }

  lemma ReadyingExpected(k: State, s: Step, t: Id)
    requires Readies(k, s, t)
    ensures Expected(k, s) == if Deferred(k, s) then MapOf(k.place).(events := k.place.event.on[t := Pending])
                              else Readied(MapOf(k.place), t)
  {
    hide Items, IsSuspended, IsBlocked, Less, DelayList, WaitList;
  }

  lemma ReadiedOn(m: Map, t: Id)
    requires t in m.prio
    ensures t in Readied(m, t).on && Readied(m, t).on[t].Ready? && t !in Readied(m, t).events
  {
  }

  lemma SuspendedNow(k: State, s: Step)
    requires Inv(k) && Enabled(k, s) && s.SuspendTask?
    ensures var p := Next(k, s).place; IsSuspended(p, s.t) && !IsBlocked(p, s.t, false)
  {
    hide Inv, Next, Enabled;
    NextIsExpected(k, s);
  }

  lemma RunnerIsOff(k: State, s: Step)
    requires Inv(k) && Enabled(k, s)
    requires s.DelaySelf? || s.BlockOn? || s.BlockUnordered? || s.BlockRestricted? || s.AwaitNotice?
    ensures k.running !in k.place.event.on
  {
    RunningMayBlock(k, s);
    NotWaiting(k, k.running);
  }

  lemma NotReadying(k: State, s: Step, t: Id)
    requires s.DelaySelf? || s.BlockOn? || s.BlockUnordered? || s.BlockRestricted? || s.AwaitNotice?
    ensures !Readies(k, s, t)
  {
  }

  lemma ReadyingOf(k: State, s: Step, t: Id)
    requires Readies(k, s, t)
    ensures t == Kernel.Readied(k, s) && Readies(k, s, Kernel.Readied(k, s))
    ensures s.WakeHead? || s.WakeUnordered? || s.ResumeTask? || s.ResumeFromIsr? || s.Abort? || s.Notify? ||
            s.NotifyFromIsr? || s.NotifyLate?
  {
    hide Items, IsSuspended, IsBlocked;
  }

  // ---- The loops ----

  /** Everything pending is ready with its priority, and everything else is where it was. */
  lemma {:induction false} MovingMap(p: Place, t: Id)
    requires Sound(p)
    ensures var q := MovePending(p);
            && q.prio == p.prio
            && if t in p.event.on && p.event.on[t] == Pending
               then t in p.prio && t in q.state.on && q.state.on[t] == Ready(p.prio[t]) && t !in q.event.on
               else && (t in q.state.on <==> t in p.state.on) && (t in p.state.on ==> q.state.on[t] == p.state.on[t])
                    && (t in q.event.on <==> t in p.event.on) && (t in p.event.on ==> q.event.on[t] == p.event.on[t])
    decreases |Items(p.event, Pending)|
  {
    hide Sound, Awaken, InOrder;
    MovePendingEmpties(p);
    if t in p.event.on && p.event.on[t] == Pending {
      PendingIsReadied(p, t);
    } else if Items(p.event, Pending) != [] {
      PendingIsAlive(p);
      PendingShrinks(p);
      AwakenKeeps(p, Items(p.event, Pending)[0].who);
      MovingMap(Awaken(p, Items(p.event, Pending)[0].who), t);
    }
  }

  /** Everything due is ready with its priority, and everything else is where it was. */
  lemma {:induction false} ExpiringMap(p: Place, tick: nat, t: Id)
    requires Sound(p)
    ensures var q, s := ExpireAll(p, tick), Items(p.state, Current(p));
            && q.prio == p.prio
            && if exists i :: 0 <= i < Due(s, tick) && s[i].who == t
               then t in p.prio && t in q.state.on && q.state.on[t] == Ready(p.prio[t]) && t !in q.event.on
               else && (t in q.state.on <==> t in p.state.on) && (t in p.state.on ==> q.state.on[t] == p.state.on[t])
                    && (t in q.event.on <==> t in p.event.on) && (t in p.event.on ==> q.event.on[t] == p.event.on[t])
    decreases |Items(p.state, Current(p))|
  {
    hide Sound, Awaken, Due, InOrder;
    var s := Items(p.state, Current(p));
    ExpireAllTakesTheDue(p, tick);
    if exists i :: 0 <= i < Due(s, tick) && s[i].who == t {
      var i :| 0 <= i < Due(s, tick) && s[i].who == t;
      ExpiredIsReadyOnce(p, tick, i);
    } else if Due(s, tick) > 0 {
      ExpireTurn(p, tick);
      HeadLeaves(p);
      AwakenKeeps(p, s[0].who);
      var q := Awaken(p, s[0].who);
      assert forall i :: 0 <= i < Due(s[1..], tick) ==> s[1..][i] == s[i + 1];
      ExpiringMap(q, tick, t);
    } else {
      DueAtHead(s, tick);
    }
  }

  // ---- The cached unblock time ----

  /** Operations after which the cached time is that of the head of the current delayed list. */
  predicate Resets(k: State, s: Step) {
    || s.SuspendTask? || (s.Remove? && s.t != k.running) || (s.WakeHead? && k.locks == 0)
    || s.Notify? || (s.NotifyLate? && !s.isr)
  }

  /** Operations that leave it alone. */
  predicate LeavesCached(k: State, s: Step) {
    || s.Lock? || s.Switch? || s.SetPriority? || s.New? || s.CleanUp? || s.SkipTicks? || (s.Remove? && s.t == k.running)
    || (s.WakeHead? && k.locks > 0) || s.ResumeTask? || s.ResumeFromIsr? || s.Abort? || s.NotifyFromIsr?
    || (s.NotifyLate? && s.isr) || (s.BlockRestricted? && s.forever)
    || ((s.BlockOn? || s.BlockUnordered? || s.AwaitNotice?) && s.w == MAX_DELAY)
  }

  /** Which operation resets the cached time, which leaves it alone, and which may bring it nearer. */
  lemma CachedTime(k: State, s: Step)
    requires Inv(k) && Enabled(k, s) && !s.Tick? && !s.Resume?
    ensures var n := Next(k, s);
            && (Resets(k, s) ==> n.nextUnblock == DL.HeadTime(OnDelayed(n.place)))
            && (LeavesCached(k, s) ==> n.nextUnblock == k.nextUnblock)
            && (s.WakeUnordered? ==> n.nextUnblock == DL.HeadTime(OnDelayed(k.place)))
            && (!Resets(k, s) && !LeavesCached(k, s) && !s.WakeUnordered? ==>
                  n.nextUnblock == if k.tick + s.w < N && k.tick + s.w < k.nextUnblock then k.tick + s.w else k.nextUnblock)
  {
    hide Inv, Next, Enabled, OnDelayed, Items, DL.HeadTime;
    if s.DelaySelf? || s.BlockOn? || s.BlockUnordered? || s.BlockRestricted? || s.AwaitNotice? {
      CachedByBlocking(k, s);
    } else {
      CachedByOthers(k, s);
    }
  }

  lemma CachedByBlocking(k: State, s: Step)
    requires Inv(k) && Enabled(k, s)
    requires s.DelaySelf? || s.BlockOn? || s.BlockUnordered? || s.BlockRestricted? || s.AwaitNotice?
    ensures Next(k, s).nextUnblock ==
            if LeavesCached(k, s) || k.tick + s.w >= N || k.tick + s.w >= k.nextUnblock then k.nextUnblock else k.tick + s.w
  {
    hide Inv, Enabled, Delay, BlockForever, JoinEvent, JoinUnordered, IncrementTick, ResumeAll, SwitchContext, Key;
    InvIsTidy(k);
    RunningMayBlock(k, s);
  }

  lemma CachedByOthers(k: State, s: Step)
    requires Inv(k) && Enabled(k, s) && !s.Tick? && !s.Resume?
    requires !s.DelaySelf? && !s.BlockOn? && !s.BlockUnordered? && !s.BlockRestricted? && !s.AwaitNotice?
    ensures var n := Next(k, s);
            && (Resets(k, s) ==> n.nextUnblock == DL.HeadTime(OnDelayed(n.place)))
            && (LeavesCached(k, s) ==> n.nextUnblock == k.nextUnblock)
            && (s.WakeUnordered? ==> n.nextUnblock == DL.HeadTime(OnDelayed(k.place)))
            && (!s.WakeUnordered? ==> Resets(k, s) || LeavesCached(k, s) || Next(k, s) == k)
  {
    hide Inv, Sound, Awaken, ToPending, Suspend, ChangePriority, Create, Delete, LowerTop, OnDelayed, Items, DL.HeadTime,
      IsSuspended, IsBlocked, IncrementTick, ResumeAll, BlockOnEvent, BlockInGroup, BlockOnRestricted, Wait, AddToDelayed;
    InvIsTidy(k);
    InvIsSound(k);
  }

  // ---- Nested suspension ----

  /** Suspending the scheduler once more and resuming it changes nothing. */
  lemma SuspensionNests(k: State)
    requires Inv(k) && (k.locks == 0 ==> k.pended == 0)
    ensures Inv(SuspendAll(k)) && SuspendAll(k).locks > 0 && ResumeAll(SuspendAll(k)) == k
  {
    hide Sound, AlwaysReady, DL.HeadTime;
    LockingInv(k);
    NonePendingMeansEmpty(k.place);
  }

  /** Ticks are pended only while the scheduler is suspended. */
  lemma NothingPended(k: State, s: Step)
    requires Inv(k) && Enabled(k, s) && (k.locks == 0 ==> k.pended == 0)
    ensures Next(k, s).locks == 0 ==> Next(k, s).pended == 0
  {
    hide Inv, Sound, TickOnce, ManyTicks, Unlock, LowerTop, Awaken, ToPending, Suspend, Delay, BlockForever, JoinEvent,
      JoinUnordered, ChangePriority, Create, Delete, Items, DL.HeadTime;
    InvIsSound(k);
    InvIsTidy(k);
    TickPended(k);
  }

  lemma TickPended(k: State)
    requires Sound(k.place) && k.tick < N
    ensures TickOnce(k).pended == k.pended && TickOnce(k).locks == k.locks
  {
    hide Sound, ExpireAll, DL.HeadTime, Items;
  }
}
