/**
  The order in which things come and go: lists that the scheduler does not walk through keep the
  order of arrival, a readied task comes last among its equals, and resuming undoes suspending.
*/
module Arrivals {
  import opened Rings
  import opened Ticks
  import opened TimedLists
  import opened Boards
  import opened Placement
  import opened Priorities
  import opened Fairness
  import opened Kernel
  import DL = DelayedLists

  // ---- Lists whose index stays on the end marker ----

  ghost predicate Unwalked<L(!new)>(b: Board<L>, l: L) {
    ListOf(b, l).at == 0
  }

  lemma PutsStayUnwalked<L(!new)>(b: Board<L>, l: L, x: Entry, m: L)
    requires Unwalked(b, m)
    ensures Unwalked(PutEnd(b, l, x), m) && Unwalked(PutSorted(b, l, x), m)
  {
    hide InsertPos;
  }

  lemma TakeOffStaysUnwalked<L(!new)>(b: Board<L>, t: Id, m: L)
    requires Unwalked(b, m)
    ensures Unwalked(TakeOff(b, t), m)
  {
    hide IndexFrom;
  }

  /** At the end of an unwalked list is at the end. */
  lemma PutEndAppends<L(!new)>(b: Board<L>, l: L, x: Entry)
    requires Unwalked(b, l)
    ensures Items(PutEnd(b, l, x), l) == Items(b, l) + [x]
  {
    var s := Items(b, l);
    assert Splice(s, |s|, x) == s + [x];
  }

  /** The index of every event list, and of every state list but the ready lists, is on its marker. */
  ghost predicate Resting(p: Place) {
    && (forall e :: Unwalked(p.event, e))
    && (forall l: StateList :: !l.Ready? ==> Unwalked(p.state, l))
  }

  ghost predicate KeepsResting(p: Place, q: Place) {
    Resting(p) ==> Resting(q)
  }

  /** Either board is as it was, or an item has been put on it or taken off it, or both. */
  ghost predicate Made<L(!new)>(b: Board<L>, c: Board<L>) {
    forall m :: Unwalked(b, m) ==> Unwalked(c, m)
  }

  lemma MadeBy<L(!new)>(b: Board<L>, t: Id, l: L, x: Entry)
    ensures Made(b, b) && Made(b, TakeOff(b, t)) && Made(b, PutEnd(b, l, x)) && Made(b, PutSorted(b, l, x))
    ensures Made(b, PutEnd(TakeOff(b, t), l, x)) && Made(b, PutSorted(TakeOff(b, t), l, x))
  {
    hide Unwalked, TakeOff, PutEnd, PutSorted;
    forall m | Unwalked(b, m)
      ensures && Unwalked(TakeOff(b, t), m) && Unwalked(PutEnd(b, l, x), m) && Unwalked(PutSorted(b, l, x), m)
              && Unwalked(PutEnd(TakeOff(b, t), l, x), m) && Unwalked(PutSorted(TakeOff(b, t), l, x), m)
    {
      TakeOffStaysUnwalked(b, t, m);
      PutsStayUnwalked(b, l, x, m);
      PutsStayUnwalked(TakeOff(b, t), l, x, m);
    }
  }

  lemma MadeRests(p: Place, q: Place)
    requires Made(p.state, q.state) && Made(p.event, q.event)
    ensures KeepsResting(p, q)
  {
    hide Unwalked;
  }

  lemma MovesRest(p: Place, t: Id)
    ensures KeepsResting(p, Suspend(p, t)) && KeepsResting(p, BlockForever(p, t)) && KeepsResting(p, ToPending(p, t))
    ensures t in p.prio ==> KeepsResting(p, Awaken(p, t))
    ensures KeepsResting(p, Delete(p, t, true)) && KeepsResting(p, Delete(p, t, false))
  {
    hide Made, TakeOff, PutEnd, KeepsResting;
    MadeBy(p.state, t, Suspended, Entry(t, 0));
    MadeBy(p.state, t, Termination, Entry(t, 0));
    MadeBy(p.event, t, Pending, Entry(t, 0));
    MadeRests(p, Suspend(p, t));
    MadeRests(p, BlockForever(p, t));
    MadeRests(p, ToPending(p, t));
    MadeRests(p, Delete(p, t, true));
    MadeRests(p, Delete(p, t, false));
    if t in p.prio {
      MadeBy(p.state, t, Ready(p.prio[t]), Entry(t, 0));
      MadeRests(p, Awaken(p, t));
    }
  }

  lemma PutsRest(p: Place, t: Id, value: nat, later: bool, o: nat, prio: nat)
    ensures KeepsResting(p, Delay(p, t, value, later))
    ensures KeepsResting(p, JoinEvent(p, t, o, value)) && KeepsResting(p, JoinUnordered(p, t, o, value))
    ensures KeepsResting(p, Create(p, t, prio)) && (t in p.prio ==> KeepsResting(p, ChangePriority(p, t, prio)))
  {
    hide Made, TakeOff, PutEnd, PutSorted, KeepsResting;
    MadeBy(p.state, t, if later then Overflow(p) else Current(p), Entry(t, value));
    MadeBy(p.state, t, Ready(prio), Entry(t, 0));
    MadeBy(p.event, t, Event(o), Entry(t, value));
    MadeRests(p, Delay(p, t, value, later));
    MadeRests(p, JoinEvent(p, t, o, value));
    MadeRests(p, JoinUnordered(p, t, o, value));
    MadeRests(p, Create(p, t, prio));
    if t in p.prio {
      MadeRests(p, ChangePriority(p, t, prio));
    }
  }

  lemma {:induction false} ExpireRests(p: Place, tick: nat)
    requires Sound(p) && Resting(p)
    ensures Resting(ExpireAll(p, tick))
    decreases |Items(p.state, Current(p))|
  {
    hide Sound, Awaken, Resting;
    var s := Items(p.state, Current(p));
    if s != [] && s[0].value <= tick {
      HeadIsAlive(p);
      HeadLeaves(p);
      MovesRest(p, s[0].who);
      ExpireRests(Awaken(p, s[0].who), tick);
    }
  }

  lemma {:induction false} MovingRests(p: Place)
    requires Sound(p) && Resting(p)
    ensures Resting(MovePending(p))
    decreases |Items(p.event, Pending)|
  {
    hide Sound, Awaken, Resting;
    var s := Items(p.event, Pending);
    if s != [] {
      PendingIsAlive(p);
      PendingShrinks(p);
      MovesRest(p, s[0].who);
      MovingRests(Awaken(p, s[0].who));
    }
  }

  lemma FlipRests(p: Place)
    requires Resting(p)
    ensures Resting(p.(first := !p.first))
  {
    hide Unwalked;
  }

  lemma TickRests(k: State)
    requires Sound(k.place) && k.tick < N && Resting(k.place)
    ensures Resting(TickOnce(k).place)
  {
    hide Sound, ExpireAll, Resting, DL.HeadTime, Items;
    var tick := Plus(k.tick, 1);
    var p := if tick == 0 then k.place.(first := !k.place.first) else k.place;
    FlipKeeps(k.place);
    FlipRests(k.place);
    ExpireRests(p, tick);
  }

  lemma {:induction false} TicksRest(k: State, n: nat)
    requires Sound(k.place) && k.tick < N && Resting(k.place)
    ensures Resting(ManyTicks(k, n).place)
    decreases n
  {
    hide Sound, TickOnce, Resting;
    if n > 0 {
      TickOnceKeeps(k);
      TickRests(k);
      TicksRest(TickOnce(k), n - 1);
    }
  }

  lemma ResumeRests(k: State)
    requires Sound(k.place) && k.tick < N && k.locks > 0 && Resting(k.place)
    ensures Resting(ResumeAll(k).place)
  {
    hide Sound, MovePending, ManyTicks, Resting, DL.HeadTime, Items;
    MovePendingEmpties(k.place);
    MovingRests(k.place);
    if k.locks == 1 {
      TicksRest(Unlock(k), k.pended);
    }
  }

  /** A context switch walks on a ready list only. */
  lemma SwitchRests(k: State)
    requires Inv(k) && Resting(k.place)
    ensures Resting(SwitchContext(k).place)
  {
    hide Inv, Sound, LowerTop, Resting, SwitchContext, TopList;
    InvIsSound(k);
    if k.locks > 0 {
      NoSwitch(k);
    } else {
      SwitchIsPick(k);
      LowerTopSame(k.place);
      PickIsNext(LowerTop(k.place));
      PickRests(k.place, LowerTop(k.place), SwitchContext(k).place);
    }
  }

  lemma PickRests(p: Place, m: Place, q: Place)
    requires Resting(p) && m == p.(top := m.top) && q == m.(state := q.state)
    requires forall l :: l != Ready(m.top) ==> ListOf(q.state, l) == ListOf(m.state, l)
    ensures Resting(q)
  {
  }

  lemma CountingRests(k: State, s: Step)
    requires Inv(k) && Enabled(k, s) && Resting(k.place)
    requires s.Tick? || s.Lock? || s.Resume? || s.SkipTicks? || s.Switch?
    ensures Resting(Next(k, s).place)
  {
    hide Inv, Sound, TickOnce, ResumeAll, SwitchContext, StepTick, Resting, Items;
    InvIsSound(k);
    InvIsTidy(k);
    match s
    case Tick => TickRests(k);
    case Lock =>
    case Resume => ResumeRests(k);
    case SkipTicks(jump) => SkipPlace(k, jump);
    case Switch => SwitchRests(k);
  }

  lemma SkipPlace(k: State, jump: nat)
    requires k.tick < N && CanStep(k, jump)
    ensures StepTick(k, jump).place == k.place
  {
  }

  lemma WaitRests(k: State, t: Id, w: nat, o: nat, value: nat)
    requires k.tick < N && w < N && Resting(k.place)
    ensures Resting(AddToDelayed(k, t, w).place) && Resting(Forever(k, t).place) && Resting(Wait(k, t, w).place)
    ensures Resting(Join(Wait(k, t, w), t, o, value).place) && Resting(JoinEnd(Wait(k, t, w), t, o, value).place)
    ensures Resting(JoinEnd(AddToDelayed(k, t, w), t, o, value).place)
    ensures Resting(JoinEnd(Forever(k, t), t, o, value).place)
  {
    hide Resting, Delay, BlockForever, JoinEvent, JoinUnordered;
    var wake := Plus(k.tick, w);
    PutsRest(k.place, t, wake, wake < k.tick, 0, 0);
    MovesRest(k.place, t);
    PutsRest(Wait(k, t, w).place, t, value, false, o, 0);
    PutsRest(AddToDelayed(k, t, w).place, t, value, false, o, 0);
    PutsRest(Forever(k, t).place, t, value, false, o, 0);
  }

  lemma BlockingRests(k: State, s: Step)
    requires Inv(k) && Enabled(k, s) && Resting(k.place)
    requires s.DelaySelf? || s.BlockOn? || s.BlockUnordered? || s.BlockRestricted? || s.AwaitNotice?
    ensures Resting(Next(k, s).place)
  {
    hide Inv, Enabled, Resting, AddToDelayed, Forever, Wait, Join, JoinEnd, IncrementTick, ResumeAll, SwitchContext, Key;
    InvIsTidy(k);
    RunningMayBlock(k, s);
    match s
    case DelaySelf(w) => WaitRests(k, k.running, w, 0, 0);
    case AwaitNotice(w) => WaitRests(k, k.running, w, 0, 0);
    case BlockOn(o, w) => WaitRests(k, k.running, w, o, Key(k.place.prio[k.running]));
    case BlockUnordered(o, value, w) => WaitRests(k, k.running, w, o, value);
    case BlockRestricted(o, w, forever) => WaitRests(k, k.running, w, o, Key(k.place.prio[k.running]));
  }

  lemma GoingRests(k: State, s: Step)
    requires Inv(k) && Enabled(k, s) && Resting(k.place)
    requires s.SuspendTask? || s.Remove? || s.SetPriority? || s.New? || s.CleanUp?
    ensures Resting(Next(k, s).place)
  {
    hide Inv, Sound, Resting, SuspendTo, Discard, Reprioritise, CreateTask, Refresh, Items, IncrementTick, ResumeAll,
      SwitchContext;
    match s
    case SuspendTask(u) => ChangesRest(k, u, 0);
    case Remove(u) => ChangesRest(k, u, 0);
    case SetPriority(u, prio) => ChangesRest(k, u, prio);
    case New(u, prio) => ChangesRest(k, u, prio);
    case CleanUp => ChangesRest(k, Items(k.place.state, Termination)[0].who, 0);
  }

  lemma ChangesRest(k: State, u: Id, prio: nat)
    requires Resting(k.place)
    ensures Resting(SuspendTo(k, u).place) && Resting(CreateTask(k, u, prio).place)
    ensures Resting(Discard(k, u, true).place)
    ensures Resting(Discard(k, u, false).place) && Resting(Refresh(Discard(k, u, false)).place)
    ensures u in k.place.prio ==> Resting(Reprioritise(k, u, prio).place)
  {
    hide Resting, Suspend, Delete, ChangePriority, Create, DL.HeadTime, Items;
    MovesRest(k.place, u);
    PutsRest(k.place, u, 0, false, 0, prio);
  }

  lemma RouseRests(k: State, t: Id)
    requires t in k.place.prio && Resting(k.place)
    ensures Resting(Rouse(k, t).place) && Resting(Defer(k, t).place)
    ensures Resting(Refresh(Rouse(k, t)).place) && Resting(Rouse(Refresh(k), t).place)
  {
    hide Resting, Awaken, ToPending, DL.HeadTime, Items;
    MovesRest(k.place, t);
  }

  lemma ReadyingRests(k: State, s: Step, t: Id)
    requires Inv(k) && Enabled(k, s) && Readies(k, s, t) && Resting(k.place)
    ensures Resting(Next(k, s).place)
  {
    hide Inv, Enabled, Resting, Rouse, Defer, Refresh, IsSuspended, IsBlocked, IncrementTick, ResumeAll,
      SwitchContext, Items;
    ReadiedWaits(k, s, t);
    RouseRests(k, t);
  }

  lemma NextRests(k: State, s: Step)
    requires Inv(k) && Enabled(k, s) && Resting(k.place)
    ensures Resting(Next(k, s).place)
  {
    hide Inv, Enabled, Next, Resting, Readies, Readied;
    if s.Tick? || s.Lock? || s.Resume? || s.SkipTicks? || s.Switch? {
      CountingRests(k, s);
    } else if s.DelaySelf? || s.BlockOn? || s.BlockUnordered? || s.BlockRestricted? || s.AwaitNotice? {
      BlockingRests(k, s);
    } else if s.SuspendTask? || s.Remove? || s.SetPriority? || s.New? || s.CleanUp? {
      GoingRests(k, s);
    } else if Readies(k, s, Readied(k, s)) {
      ReadyingRests(k, s, Readied(k, s));
    } else {
      NothingReadied(k, s);
    }
  }

  lemma NothingReadied(k: State, s: Step)
    requires Inv(k) && Enabled(k, s) && !Readies(k, s, Readied(k, s))
    requires s.WakeHead? || s.WakeUnordered? || s.ResumeTask? || s.ResumeFromIsr? || s.Abort? || s.Notify? ||
             s.NotifyFromIsr? || s.NotifyLate?
    ensures Next(k, s) == k
  {
    hide Inv, Rouse, Refresh, Defer, WakeUp, IsSuspended, IsBlocked;
  }

  lemma {:induction false} RunRests(k: State, steps: seq<Step>)
    requires Inv(k) && Possible(k, steps) && Resting(k.place)
    ensures Resting(Run(k, steps).place)
    decreases |steps|
  {
    hide Inv, Next, Enabled, Resting;
    if steps != [] {
      NextKeeps(k, steps[0]);
      NextRests(k, steps[0]);
      RunRests(Next(k, steps[0]), steps[1..]);
    }
  }

  lemma StartRests(idle: Id)
    ensures Inv(Start(idle)) && Resting(Start(idle).place)
  {
    hide Inv, Create;
    StartInv(idle);
    NothingRests();
    PutsRest(NOTHING, idle, 0, false, 0, 0);
  }

  lemma NothingRests()
    ensures Resting(NOTHING)
  {
  }

  lemma EndRests(idle: Id, steps: seq<Step>)
    requires PossibleFromStart(idle, steps)
    ensures Resting(End(idle, steps).place)
  {
    hide Inv, Resting, Run, Start, Possible;
    StartRests(idle);
    EndIsRun(idle, steps);
    RunRests(Start(idle), steps);
  }

  lemma EndIsRun(idle: Id, steps: seq<Step>)
    requires PossibleFromStart(idle, steps)
    ensures Inv(Start(idle)) && Possible(Start(idle), steps) && End(idle, steps) == Run(Start(idle), steps)
  {
    hide Inv, Run, Start, Possible;
    StartInv(idle);
  }

  // ---- Who comes first ----

  /** After every run: who begins to wait for an event group is behind all that wait for it, with
      the condition of its wait; who is deferred is behind all that are pending; who deletes
      itself is behind all that await their clean-up, and that takes the one in front. */
  lemma FirstComeFirstServed(idle: Id, steps: seq<Step>, s: Step)
    requires PossibleFromStart(idle, steps) && Enabled(End(idle, steps), s)
    ensures var k := End(idle, steps); var p, q := k.place, Next(k, s).place;
            && (s.BlockUnordered? ==>
                  Items(q.event, Event(s.o)) == Items(p.event, Event(s.o)) + [Entry(k.running, s.value)])
            && (s.NotifyFromIsr? && k.locks > 0 ==> Items(q.event, Pending) == Items(p.event, Pending) + [Entry(s.t, 0)])
            && (s.Remove? && s.t == k.running ==>
                  Items(q.state, Termination) == Items(p.state, Termination) + [Entry(s.t, 0)])
            && (s.CleanUp? ==> Items(q.state, Termination) == Items(p.state, Termination)[1..])
  {
    hide Inv, Resting, End, PossibleFromStart, Items;
    EndRests(idle, steps);
    var k := End(idle, steps);
    match s
    case BlockUnordered(o, value, w) => GroupOrder(k, o, value, w);
    case NotifyFromIsr(t) => if k.locks > 0 { PendingOrder(k, t); }
    case Remove(t) => if t == k.running { TerminationOrder(k, t); }
    case CleanUp => CleanUpOrder(k);
    case _ =>
  }

  lemma GroupOrder(k: State, o: nat, value: nat, w: nat)
    requires Inv(k) && Enabled(k, BlockUnordered(o, value, w)) && Resting(k.place)
    ensures Items(Next(k, BlockUnordered(o, value, w)).place.event, Event(o)) ==
            Items(k.place.event, Event(o)) + [Entry(k.running, value)]
  {
    hide Sound, AlwaysReady, NonePending, Delay, BlockForever, PutEnd, Items, IncrementTick, ResumeAll, SwitchContext;
    WaitEvents(k, k.running, w);
    PutEndAppends(k.place.event, Event(o), Entry(k.running, value));
  }

  lemma WaitEvents(k: State, t: Id, w: nat)
    requires k.tick < N && w < N
    ensures Wait(k, t, w).place.event == k.place.event
  {
    hide PutSorted, PutEnd, TakeOff;
  }

  lemma PendingOrder(k: State, t: Id)
    requires Inv(k) && Enabled(k, NotifyFromIsr(t)) && Resting(k.place) && k.locks > 0
    ensures Items(Next(k, NotifyFromIsr(t)).place.event, Pending) == Items(k.place.event, Pending) + [Entry(t, 0)]
  {
    hide Sound, AlwaysReady, NonePending, PutEnd, Items, Awaken, IncrementTick, ResumeAll, SwitchContext;
    NotOnBoard(k.place.event, t);
    PutEndAppends(k.place.event, Pending, Entry(t, 0));
  }

  lemma NotOnBoard(b: Board<EventList>, t: Id)
    requires t !in b.on
    ensures TakeOff(b, t) == b
  {
  }

  lemma TerminationOrder(k: State, t: Id)
    requires Inv(k) && Enabled(k, Remove(t)) && Resting(k.place) && t == k.running
    ensures Items(Next(k, Remove(t)).place.state, Termination) == Items(k.place.state, Termination) + [Entry(t, 0)]
  {
    hide InOrder, AlwaysReady, NonePending, PutEnd, Items, TakeOff, Without, IncrementTick, ResumeAll, SwitchContext;
    InvIsSound(k);
    SoundIsValid(k.place);
    TakeOffItems(k.place.state, t, Termination);
    OnExactlyOneList(k.place.state, Termination, t);
    NotThere(Items(k.place.state, Termination), t);
    TakeOffStaysUnwalked(k.place.state, t, Termination);
    PutEndAppends(TakeOff(k.place.state, t), Termination, Entry(t, 0));
  }

  lemma CleanUpOrder(k: State)
    requires Inv(k) && Enabled(k, CleanUp)
    ensures Items(Next(k, CleanUp).place.state, Termination) == Items(k.place.state, Termination)[1..]
  {
    hide InOrder, AlwaysReady, NonePending, Items, TakeOff, Without, IncrementTick, ResumeAll, SwitchContext;
    InvIsSound(k);
    SoundIsValid(k.place);
    var s := Items(k.place.state, Termination);
    TakeOffItems(k.place.state, s[0].who, Termination);
    WithoutHead(s);
  }

  // ---- A readied task comes last ----

  /** A task that is readied is chosen after every other task of its priority, unless the index
      rests on that one's item; and it comes no nearer for any of them. */
  lemma ReadiedComesLast(p: Place, t: Id, u: Id)
    requires Sound(p) && t in p.prio && u != t && u in p.state.on && p.state.on[u] == Ready(p.prio[t])
    ensures var r := ListOf(Awaken(p, t).state, Ready(p.prio[t]));
            exists i, j :: 0 <= i < |r.items| && 0 <= j < |r.items| && r.at <= |r.items|
                           && r.items[i].who == u && r.items[j].who == t
                           && (i + 1 != r.at ==> Turns(r, i) < Turns(r, j))
  {
    hide InOrder, PutEnd, TakeOff, InsertEnd, Turns;
    SoundIsValid(p);
    var b, l, x := TakeOff(p.state, t), Ready(p.prio[t]), Entry(t, 0);
    TakenOff(p.state, t);
    ListInRange(b, l);
    PutEndIsInsertEnd(b, l, x, l);
    var r := InsertEnd(ListOf(b, l), x);
    AwakenKeeps(p, t);
    SoundIsValid(Awaken(p, t));
    OnExactlyOneList(Awaken(p, t).state, l, u);
    var i :| 0 <= i < |r.items| && r.items[i].who == u;
    InsertedSize(ListOf(b, l), x);
    InsertedComesLast(ListOf(b, l), x, i);
    assert r.items[Back(ListOf(b, l))] == x;
  }

  lemma ListInRange(b: Board<StateList>, l: StateList)
    requires InOrder(b)
    ensures ListOf(b, l).at <= |Items(b, l)|
  {
  }

  lemma InsertedSize(r: Ring<Entry>, x: Entry)
    requires r.at <= |r.items|
    ensures |InsertEnd(r, x).items| == |r.items| + 1 && InsertEnd(r, x).at <= |r.items| + 1
  {
  }

  // ---- Suspending and resuming ----

  /** Suspending a task and resuming it leaves it ready with its priority, on no event list, however
      it was before, and nobody else moved; in between it is suspended. */
  lemma ResumeUndoesSuspend(k: State, t: Id)
    requires Inv(k) && Enabled(k, SuspendTask(t)) && t != k.running
    ensures Inv(SuspendTo(k, t)) && IsSuspended(SuspendTo(k, t).place, t) && t in SuspendTo(k, t).place.prio
    ensures var n := Rouse(SuspendTo(k, t), t);
            && t in k.place.prio && t in n.place.state.on
            && n.place.state.on[t] == Ready(k.place.prio[t]) && t !in n.place.event.on
            && OthersStay(k.place.state, n.place.state, t) && OthersStay(k.place.event, n.place.event, t)
            && n.place.prio == k.place.prio && n.running == k.running && n.locks == k.locks
  {
    hide InOrder, AlwaysReady, NonePending, Suspend, Awaken, DL.HeadTime, Items;
    SuspendInv(k, t);
    SuspendKeeps(k.place, t);
    SuspendFrame(k.place, t);
    AwakenKeeps(Suspend(k.place, t), t);
    AwakenFrame(Suspend(k.place, t), t);
  }

  /** That is what the two operations do. */
  lemma SuspendAndResume(k: State, t: Id)
    requires Inv(k) && Enabled(k, SuspendTask(t)) && t != k.running
    ensures Next(k, SuspendTask(t)) == SuspendTo(k, t)
    ensures Inv(SuspendTo(k, t)) && t in SuspendTo(k, t).place.prio
    ensures Enabled(SuspendTo(k, t), ResumeTask(t)) && Next(SuspendTo(k, t), ResumeTask(t)) == Rouse(SuspendTo(k, t), t)
  {
    hide Inv, SuspendTo, Rouse, IsSuspended;
    ResumeUndoesSuspend(k, t);
    SuspendRunner(k, t);
  }

  lemma SuspendRunner(k: State, t: Id)
    ensures SuspendTo(k, t).running == k.running
  {
    hide Suspend, DL.HeadTime, Items;
  }
}
