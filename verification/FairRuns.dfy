/**
  Over kernel runs: a ready task of the highest priority runs within as many context switches as
  tasks were ready at that priority, whatever else becomes ready, blocks or goes meanwhile.
*/
module FairRuns {
  import opened Rings
  import opened Ticks
  import opened TimedLists
  import opened Boards
  import opened Placement
  import opened Fairness
  import opened Priorities
  import opened Kernel
  import DL = DelayedLists

  // ---- One list ----

  /** The index rests on the item of t: t has been chosen last, or what was behind it has left. */
  ghost predicate Rests(r: Ring<Entry>, t: Id) {
    0 < r.at <= |r.items| && r.items[r.at - 1].who == t
  }

  /** t is on the list, and no more than d choices away, unless the index rests on it. */
  ghost predicate Near(r: Ring<Entry>, t: Id, d: nat) {
    r.at <= |r.items| && exists i :: 0 <= i < |r.items| && IsNear(r, i, t, d)
  }

  ghost predicate IsNear(r: Ring<Entry>, i: nat, t: Id, d: nat)
    requires r.at <= |r.items| && i < |r.items|
  {
    r.items[i].who == t && (i + 1 == r.at || Turns(r, i) <= d)
  }

  /** What comes is put before the index, and so behind t. */
  lemma NearAdd(r: Ring<Entry>, x: Entry, t: Id, d: nat)
    requires Near(r, t, d)
    ensures Near(InsertEnd(r, x), t, d)
  {
    var i :| 0 <= i < |r.items| && IsNear(r, i, t, d);
    var s, j := InsertEnd(r, x), if i < Back(r) then i else i + 1;
    SpliceAt(r.items, Back(r), x, i);
    assert s.at <= |s.items|;
    assert IsNear(s, j, t, d);
  }

  /** What goes brings t nearer, or leaves it where it is. */
  lemma NearCut(r: Ring<Entry>, k: nat, t: Id, d: nat)
    requires Near(r, t, d) && k < |r.items| && r.items[k].who != t
    ensures Near(Rings.Remove(r, k), t, d)
  {
    var i :| 0 <= i < |r.items| && IsNear(r, i, t, d);
    var s, j := Rings.Remove(r, k), if i < k then i else i - 1;
    CutAt(r.items, k, i);
    assert s.at <= |s.items|;
    assert IsNear(s, j, t, d);
  }

  /** A choice takes t, or brings it one choice nearer. */
  lemma NearAdvance(r: Ring<Entry>, t: Id, d: nat)
    requires Near(r, t, d) && !Rests(r, t)
    ensures d > 0 && r.items != [] && r.at <= |r.items|
    ensures Selected(Advance(r)).who == t || (d > 1 && Near(Advance(r), t, d - 1) && !Rests(Advance(r), t))
  {
    var i :| 0 <= i < |r.items| && IsNear(r, i, t, d);
    TurnsAdvance(r, i);
    if Turns(r, i) > 1 {
      assert IsNear(Advance(r), i, t, d - 1);
    }
  }

  /** At the beginning t is no further away than the list is long. */
  lemma NearAtFirst(r: Ring<Entry>, t: Id)
    requires r.at <= |r.items| && Has(r.items, t)
    ensures Near(r, t, |r.items|)
  {
    var i :| 0 <= i < |r.items| && r.items[i].who == t;
    assert IsNear(r, i, t, |r.items|);
  }

  // ---- The ready list, move by move ----

  function ReadyList(p: Place, q: nat): Ring<Entry> {
    ListOf(p.state, Ready(q))
  }

  /** t has not come further away on the ready list of priority q. */
  ghost predicate NoFurther(p: Place, n: Place, q: nat, t: Id) {
    forall d: nat :: Near(ReadyList(p, q), t, d) ==> Near(ReadyList(n, q), t, d)
  }

  lemma SameList(p: Place, n: Place, q: nat, t: Id)
    requires ReadyList(n, q) == ReadyList(p, q)
    ensures NoFurther(p, n, q, t)
  {
  }

  lemma TakeOffNoFurther(p: Place, n: Place, u: Id, q: nat, t: Id)
    requires Sound(p) && u != t && n.state == TakeOff(p.state, u)
    ensures NoFurther(p, n, q, t)
  {
    hide InOrder, TakeOff, Near, Rings.Remove, IndexFrom;
    SoundIsValid(p);
    TakeOffIsRemove(p.state, u, Ready(q));
    if u in p.state.on && p.state.on[u] == Ready(q) {
      var k := IndexFrom(Items(p.state, Ready(q)), u, 0);
      forall d: nat | Near(ReadyList(p, q), t, d) ensures Near(ReadyList(n, q), t, d) {
        NearCut(ReadyList(p, q), k, t, d);
      }
    }
  }

  lemma PutEndNoFurther(p: Place, n: Place, l: StateList, x: Entry, q: nat, t: Id)
    requires InOrder(p.state) && n.state == PutEnd(p.state, l, x)
    ensures NoFurther(p, n, q, t)
  {
    hide PutEnd, Near, InsertEnd;
    ListInRange(p.state, l);
    PutEndIsInsertEnd(p.state, l, x, Ready(q));
    if l == Ready(q) {
      forall d: nat | Near(ReadyList(p, q), t, d) ensures Near(ReadyList(n, q), t, d) {
        NearAdd(ReadyList(p, q), x, t, d);
      }
    }
  }

  lemma ListInRange(b: Board<StateList>, l: StateList)
    requires InOrder(b)
    ensures ListOf(b, l).at <= |Items(b, l)|
  {
  }

  lemma PutSortedNoFurther(p: Place, n: Place, l: StateList, x: Entry, q: nat, t: Id)
    requires !l.Ready? && n.state == PutSorted(p.state, l, x)
    ensures NoFurther(p, n, q, t)
  {
    hide PutSorted, Near;
    PutSortedElsewhere(p.state, l, x, Ready(q));
  }

  lemma ThenNoFurther(p: Place, m: Place, n: Place, q: nat, t: Id)
    requires NoFurther(p, m, q, t) && NoFurther(m, n, q, t)
    ensures NoFurther(p, n, q, t)
  {
    hide Near;
  }

  /** Off its list and to the end of another one, or of the same. */
  lemma MoveNoFurther(p: Place, n: Place, u: Id, l: StateList, value: nat, q: nat, t: Id)
    requires Sound(p) && u != t && n.state == PutEnd(TakeOff(p.state, u), l, Entry(u, value))
    ensures NoFurther(p, n, q, t)
  {
    hide Sound, InOrder, TakeOff, PutEnd, NoFurther;
    var m := p.(state := TakeOff(p.state, u));
    SoundIsValid(p);
    TakenOff(p.state, u);
    TakeOffNoFurther(p, m, u, q, t);
    PutEndNoFurther(m, n, l, Entry(u, value), q, t);
    ThenNoFurther(p, m, n, q, t);
  }

  lemma DelayNoFurther(p: Place, u: Id, value: nat, later: bool, q: nat, t: Id)
    requires Sound(p) && u != t
    ensures NoFurther(p, Delay(p, u, value, later), q, t)
  {
    hide Sound, TakeOff, PutSorted, NoFurther;
    var m := p.(state := TakeOff(p.state, u));
    TakeOffNoFurther(p, m, u, q, t);
    PutSortedNoFurther(m, Delay(p, u, value, later), if later then Overflow(p) else Current(p), Entry(u, value), q, t);
    ThenNoFurther(p, m, Delay(p, u, value, later), q, t);
  }

  lemma AwakenNoFurther(p: Place, u: Id, q: nat, t: Id)
    requires Sound(p) && u in p.prio && u != t
    ensures NoFurther(p, Awaken(p, u), q, t)
  {
    hide Sound, TakeOff, PutEnd, NoFurther;
    MoveNoFurther(p, Awaken(p, u), u, Ready(p.prio[u]), 0, q, t);
  }

  lemma {:induction false} ExpireNoFurther(p: Place, tick: nat, q: nat, t: Id)
    requires Sound(p) && t in p.state.on && p.state.on[t].Ready?
    ensures NoFurther(p, ExpireAll(p, tick), q, t)
    decreases |Items(p.state, Current(p))|
  {
    hide Sound, Awaken, NoFurther;
    var s := Items(p.state, Current(p));
    if s != [] && s[0].value <= tick {
      HeadIsAlive(p);
      HeadLeaves(p);
      AwakenKeeps(p, s[0].who);
      AwakenNoFurther(p, s[0].who, q, t);
      ExpireNoFurther(Awaken(p, s[0].who), tick, q, t);
      ThenNoFurther(p, Awaken(p, s[0].who), ExpireAll(p, tick), q, t);
    } else {
      SameList(p, p, q, t);
    }
  }

  lemma {:induction false} MovingNoFurther(p: Place, q: nat, t: Id)
    requires Sound(p) && t in p.state.on && p.state.on[t].Ready?
    ensures NoFurther(p, MovePending(p), q, t)
    ensures t in MovePending(p).state.on && MovePending(p).state.on[t] == p.state.on[t]
    decreases |Items(p.event, Pending)|
  {
    hide Sound, Awaken, NoFurther;
    var s := Items(p.event, Pending);
    if s != [] {
      PendingIsAlive(p);
      PendingShrinks(p);
      AwakenKeeps(p, s[0].who);
      ReadyIsNotPending(p, t);
      AwakenNoFurther(p, s[0].who, q, t);
      MovingNoFurther(Awaken(p, s[0].who), q, t);
      ThenNoFurther(p, Awaken(p, s[0].who), MovePending(p), q, t);
    } else {
      SameList(p, p, q, t);
    }
  }

  lemma ReadyIsNotPending(p: Place, t: Id)
    requires Sound(p) && t in p.state.on && p.state.on[t].Ready? && Items(p.event, Pending) != []
    ensures Items(p.event, Pending)[0].who != t
  {
    hide InOrder;
    PendingIsAlive(p);
  }

  // ---- Every operation ----

  /** The operation takes t off its ready list, or puts it there anew. */
  ghost predicate Moves(k: State, s: Step, t: Id) {
    || ((s.DelaySelf? || s.BlockOn? || s.BlockUnordered? || s.BlockRestricted? || s.AwaitNotice?) && k.running == t)
    || ((s.SuspendTask? || s.Remove? || s.SetPriority? || s.NotifyLate?) && s.t == t)
  }

  ghost predicate IsOn(p: Place, q: nat, t: Id) {
    t in p.state.on && p.state.on[t] == Ready(q)
  }

  lemma TickNoFurther(k: State, q: nat, t: Id)
    requires Sound(k.place) && k.tick < N && IsOn(k.place, q, t)
    ensures NoFurther(k.place, TickOnce(k).place, q, t) && IsOn(TickOnce(k).place, q, t)
  {
    hide InOrder, ExpireAll, DL.HeadTime, NoFurther, Items;
    var tick := Plus(k.tick, 1);
    var p := if tick == 0 then k.place.(first := !k.place.first) else k.place;
    FlipKeeps(k.place);
    SameList(k.place, p, q, t);
    ReadyStays(p, tick, t);
    ExpireNoFurther(p, tick, q, t);
    ThenNoFurther(k.place, p, ExpireAll(p, tick), q, t);
  }

  lemma {:induction false} TicksNoFurther(k: State, n: nat, q: nat, t: Id)
    requires Sound(k.place) && k.tick < N && IsOn(k.place, q, t)
    ensures NoFurther(k.place, ManyTicks(k, n).place, q, t)
    decreases n
  {
    hide Sound, TickOnce, NoFurther;
    if n > 0 {
      TickOnceKeeps(k);
      TickNoFurther(k, q, t);
      TicksNoFurther(TickOnce(k), n - 1, q, t);
      ThenNoFurther(k.place, TickOnce(k).place, ManyTicks(k, n).place, q, t);
    } else {
      SameList(k.place, k.place, q, t);
    }
  }

  lemma ResumeNoFurther(k: State, q: nat, t: Id)
    requires Sound(k.place) && k.tick < N && k.locks > 0 && IsOn(k.place, q, t)
    ensures NoFurther(k.place, ResumeAll(k).place, q, t)
  {
    hide Sound, MovePending, ManyTicks, NoFurther, DL.HeadTime, Items;
    MovePendingEmpties(k.place);
    MovingNoFurther(k.place, q, t);
    SameList(k.place, k.place, q, t);
    if k.locks == 1 {
      TicksNoFurther(Unlock(k), k.pended, q, t);
      ThenNoFurther(k.place, Unlock(k).place, ResumeAll(k).place, q, t);
    }
  }

  lemma CountingNoFurther(k: State, s: Step, q: nat, t: Id)
    requires Inv(k) && Enabled(k, s) && IsOn(k.place, q, t)
    requires s.Tick? || s.Lock? || s.Resume? || s.SkipTicks? || (s.Switch? && k.locks > 0)
    ensures NoFurther(k.place, Next(k, s).place, q, t)
  {
    hide Inv, Sound, TickOnce, ResumeAll, SwitchContext, NoFurther, IsOn, Items;
    InvIsSound(k);
    InvIsTidy(k);
    SameList(k.place, k.place, q, t);
    match s
    case Tick => TickNoFurther(k, q, t);
    case Lock =>
    case Resume => ResumeNoFurther(k, q, t);
    case SkipTicks(jump) => SkipLists(k, jump);
    case Switch => NoSwitch(k);
  }

  lemma SkipLists(k: State, jump: nat)
    requires k.tick < N && CanStep(k, jump)
    ensures StepTick(k, jump).place == k.place
  {
  }

  lemma SuspendNoFurther(p: Place, u: Id, q: nat, t: Id)
    requires Sound(p) && u != t
    ensures NoFurther(p, Suspend(p, u), q, t) && NoFurther(p, BlockForever(p, u), q, t)
  {
    hide Sound, TakeOff, PutEnd, NoFurther;
    MoveNoFurther(p, Suspend(p, u), u, Suspended, 0, q, t);
    MoveNoFurther(p, BlockForever(p, u), u, Suspended, 0, q, t);
  }

  lemma DeleteNoFurther(p: Place, u: Id, itself: bool, q: nat, t: Id)
    requires Sound(p) && u != t
    ensures NoFurther(p, Delete(p, u, itself), q, t)
  {
    hide Sound, TakeOff, PutEnd, NoFurther;
    MoveNoFurther(p, Delete(p, u, true), u, Termination, 0, q, t);
    TakeOffNoFurther(p, Delete(p, u, false), u, q, t);
  }

  lemma RepriceNoFurther(p: Place, u: Id, prio: nat, q: nat, t: Id)
    requires Sound(p) && u in p.prio && u != t
    ensures NoFurther(p, ChangePriority(p, u, prio), q, t)
  {
    hide Sound, TakeOff, PutEnd, NoFurther;
    SameList(p, p.(prio := p.prio[u := prio]), q, t);
    if u in p.state.on && p.state.on[u] == Ready(p.prio[u]) {
      MoveNoFurther(p, ChangePriority(p, u, prio), u, Ready(prio), 0, q, t);
    }
  }

  lemma CreateNoFurther(p: Place, u: Id, prio: nat, q: nat, t: Id)
    requires Sound(p)
    ensures NoFurther(p, Create(p, u, prio), q, t)
  {
    hide InOrder, PutEnd, NoFurther;
    PutEndNoFurther(p, Create(p, u, prio), Ready(prio), Entry(u, 0), q, t);
  }

  lemma GoingNoFurther(k: State, s: Step, q: nat, t: Id)
    requires Inv(k) && Enabled(k, s) && IsOn(k.place, q, t) && !Moves(k, s, t)
    requires s.SuspendTask? || s.Remove? || s.SetPriority? || s.New? || s.CleanUp?
    ensures NoFurther(k.place, Next(k, s).place, q, t)
  {
    hide Inv, Sound, NoFurther, Suspend, Delete, ChangePriority, Create, DL.HeadTime, OnDelayed, Items;
    InvIsSound(k);
    match s
    case SuspendTask(u) => SuspendNoFurther(k.place, u, q, t);
    case Remove(u) => DeleteNoFurther(k.place, u, u == k.running, q, t);
    case SetPriority(u, prio) => RepriceNoFurther(k.place, u, prio, q, t);
    case New(u, prio) => CreateNoFurther(k.place, u, prio, q, t);
    case CleanUp =>
      DeletedIsNotIdle(k);
      DeleteNoFurther(k.place, Items(k.place.state, Termination)[0].who, false, q, t);
  }

  lemma WaitNoFurther(k: State, w: nat, q: nat, t: Id)
    requires Sound(k.place) && k.tick < N && w < N && k.running != t
    ensures NoFurther(k.place, AddToDelayed(k, k.running, w).place, q, t)
    ensures NoFurther(k.place, Forever(k, k.running).place, q, t)
    ensures NoFurther(k.place, Wait(k, k.running, w).place, q, t)
  {
    hide Sound, NoFurther, Delay, BlockForever;
    DelayNoFurther(k.place, k.running, Plus(k.tick, w), Plus(k.tick, w) < k.tick, q, t);
    SuspendNoFurther(k.place, k.running, q, t);
  }

  lemma JoinNoFurther(k: State, d: State, u: Id, o: nat, value: nat, q: nat, t: Id)
    requires NoFurther(k.place, d.place, q, t)
    ensures NoFurther(k.place, Join(d, u, o, value).place, q, t) && NoFurther(k.place, JoinEnd(d, u, o, value).place, q, t)
  {
    hide Near, PutSorted, PutEnd;
    SameList(d.place, Join(d, u, o, value).place, q, t);
    SameList(d.place, JoinEnd(d, u, o, value).place, q, t);
  }

  lemma BlockingNoFurther(k: State, s: Step, q: nat, t: Id)
    requires Inv(k) && Enabled(k, s) && !Moves(k, s, t)
    requires s.DelaySelf? || s.BlockOn? || s.BlockUnordered? || s.BlockRestricted? || s.AwaitNotice?
    ensures NoFurther(k.place, Next(k, s).place, q, t)
  {
    hide Inv, Enabled, Sound, NoFurther, AddToDelayed, Forever, Wait, Join, JoinEnd, IncrementTick, ResumeAll, SwitchContext,
      Key;
    InvIsSound(k);
    InvIsTidy(k);
    RunningMayBlock(k, s);
    var r := k.running;
    WaitNoFurther(k, s.w, q, t);
    match s
    case DelaySelf(w) =>
    case AwaitNotice(w) =>
    case BlockOn(o, w) => JoinNoFurther(k, Wait(k, r, w), r, o, Key(k.place.prio[r]), q, t);
    case BlockUnordered(o, value, w) => JoinNoFurther(k, Wait(k, r, w), r, o, value, q, t);
    case BlockRestricted(o, w, forever) =>
      JoinNoFurther(k, if forever then Forever(k, r) else AddToDelayed(k, r, w), r, o, Key(k.place.prio[r]), q, t);
  }

  lemma RouseNoFurther(k: State, u: Id, q: nat, t: Id)
    requires Sound(k.place) && u in k.place.prio && u != t
    ensures NoFurther(k.place, Rouse(k, u).place, q, t) && NoFurther(k.place, Defer(k, u).place, q, t)
    ensures NoFurther(k.place, Refresh(Rouse(k, u)).place, q, t) && NoFurther(k.place, Rouse(Refresh(k), u).place, q, t)
  {
    hide Sound, NoFurther, Awaken, TakeOff, PutEnd, DL.HeadTime, Items;
    AwakenNoFurther(k.place, u, q, t);
    SameList(k.place, Defer(k, u).place, q, t);
  }

  lemma ReadyingNoFurther(k: State, s: Step, u: Id, q: nat, t: Id)
    requires Inv(k) && Enabled(k, s) && Readies(k, s, u) && IsOn(k.place, q, t) && !Moves(k, s, t)
    ensures NoFurther(k.place, Next(k, s).place, q, t)
  {
    hide Inv, Enabled, Sound, NoFurther, Rouse, Defer, Refresh, IsSuspended, IsBlocked, IncrementTick, ResumeAll,
      SwitchContext, Items;
    ReadiedWaits(k, s, u);
    InvIsSound(k);
    RouseNoFurther(k, u, q, t);
  }

  /** Nothing but a context switch, and what moves t itself, brings t further from its turn. */
  lemma StepNoFurther(k: State, s: Step, q: nat, t: Id)
    requires Inv(k) && Enabled(k, s) && IsOn(k.place, q, t) && !Moves(k, s, t) && !(s.Switch? && k.locks == 0)
    ensures NoFurther(k.place, Next(k, s).place, q, t)
  {
    hide Inv, Enabled, Next, IsOn, NoFurther, Readies, Readied;
    if s.Tick? || s.Lock? || s.Resume? || s.SkipTicks? || s.Switch? {
      CountingNoFurther(k, s, q, t);
    } else if s.DelaySelf? || s.BlockOn? || s.BlockUnordered? || s.BlockRestricted? || s.AwaitNotice? {
      BlockingNoFurther(k, s, q, t);
    } else if s.SuspendTask? || s.Remove? || s.SetPriority? || s.New? || s.CleanUp? {
      GoingNoFurther(k, s, q, t);
    } else if Readies(k, s, Readied(k, s)) {
      ReadyingNoFurther(k, s, Readied(k, s), q, t);
    } else {
      NothingChanges(k, s);
      SameList(k.place, k.place, q, t);
    }
  }

  lemma NothingChanges(k: State, s: Step)
    requires Inv(k) && Enabled(k, s) && !Readies(k, s, Readied(k, s))
    requires s.WakeHead? || s.WakeUnordered? || s.ResumeTask? || s.ResumeFromIsr? || s.Abort? || s.Notify? ||
             s.NotifyFromIsr? || s.NotifyLate?
    ensures Next(k, s) == k
  {
    hide Inv, Rouse, Refresh, Defer, WakeUp, IsSuspended, IsBlocked;
  }

  // ---- Context switches ----

  /** Nothing ready is above priority q. */
  ghost predicate NoneAbove(p: Place, q: nat) {
    forall u :: u in p.state.on && p.state.on[u].Ready? ==> p.state.on[u].p <= q
  }

  /** With t ready at the highest priority, the switch is made from its list. */
  lemma SwitchFromList(k: State, q: nat, t: Id)
    requires Inv(k) && k.locks == 0 && IsOn(k.place, q, t) && NoneAbove(k.place, q)
    ensures var r, n := ReadyList(k.place, q), SwitchContext(k);
            && r.items != [] && r.at <= |r.items| && ReadyList(n.place, q) == Advance(r)
            && n.running == Selected(Advance(r)).who && n.place.state.on == k.place.state.on
  {
    hide InOrder, NonePending, AlwaysReady;
    SwitchPicksHighest(k);
    SwitchIsPick(k);
    PickIsNext(LowerTop(k.place));
    LowerTopSame(k.place);
    PickIsHighest(LowerTop(k.place));
    TopIsHighest(k.place, q, t);
  }

  lemma TopIsHighest(p: Place, q: nat, t: Id)
    requires Sound(p) && IsOn(p, q, t) && NoneAbove(p, q)
    ensures LowerTop(p).top == q
  {
    hide InOrder;
    LowerTopFinds(p);
    var m := LowerTop(p);
    var s := Items(m.state, Ready(m.top));
    if s != [] {
      assert Has(s, s[0].who);
      OnExactlyOneList(m.state, Ready(m.top), s[0].who);
      OnExactlyOneList(m.state, Ready(q), t);
      if m.top < q {
        NothingAboveTop(m, q);
      }
    }
  }

  // ---- Runs ----

  /** t waits for its turn: it is ready, nothing ready is above it at a switch, no operation moves
      it, and the index does not come to rest on it; until it is chosen. */
  ghost predicate WaitsItsTurn(k: State, steps: seq<Step>, q: nat, t: Id)
    requires Inv(k) && Possible(k, steps)
    decreases |steps|
  {
    && IsOn(k.place, q, t) && !Rests(ReadyList(k.place, q), t)
    && (steps != [] ==>
          && !Moves(k, steps[0], t)
          && (steps[0].Switch? && k.locks == 0 ==> NoneAbove(k.place, q))
          && (NextKeeps(k, steps[0]);
              || (steps[0].Switch? && k.locks == 0 && Next(k, steps[0]).running == t)
              || WaitsItsTurn(Next(k, steps[0]), steps[1..], q, t)))
  }

  /** The tasks that run after the context switches of a run. */
  ghost function Runs(k: State, steps: seq<Step>): seq<Id>
    requires Inv(k) && Possible(k, steps)
    decreases |steps|
  {
    if steps == [] then []
    else
      NextKeeps(k, steps[0]);
      var n := Next(k, steps[0]);
      (if steps[0].Switch? && k.locks == 0 then [n.running] else []) + Runs(n, steps[1..])
  }

  lemma SwitchComesNearer(k: State, q: nat, t: Id, d: nat)
    requires Inv(k) && k.locks == 0 && IsOn(k.place, q, t) && NoneAbove(k.place, q)
    requires Near(ReadyList(k.place, q), t, d) && !Rests(ReadyList(k.place, q), t)
    ensures d > 0
    ensures SwitchContext(k).running == t ||
            (d > 1 && Near(ReadyList(SwitchContext(k).place, q), t, d - 1) && IsOn(SwitchContext(k).place, q, t))
  {
    hide Inv, Near, Rests, Advance, Selected, SwitchContext, NoneAbove, Sound;
    InvIsSound(k);
    SwitchFromList(k, q, t);
    NearAdvance(ReadyList(k.place, q), t, d);
  }

  lemma {:induction false} RunComesNearer(k: State, steps: seq<Step>, q: nat, t: Id, d: nat)
    requires Inv(k) && Possible(k, steps) && WaitsItsTurn(k, steps, q, t) && Near(ReadyList(k.place, q), t, d)
    ensures |Runs(k, steps)| >= d ==> t in Runs(k, steps)[..d]
    ensures d > 0
    decreases |steps|
  {
    hide Inv, Next, Enabled, Near, Rests, IsOn, NoneAbove, Moves, NoFurther, ReadyList;
    if steps == [] {
      NearIsPositive(ReadyList(k.place, q), t, d);
    } else {
      var s, n := steps[0], Next(k, steps[0]);
      NextKeeps(k, s);
      if s.Switch? && k.locks == 0 {
        SwitchNext(k);
        SwitchComesNearer(k, q, t, d);
        if n.running != t {
          RunComesNearer(n, steps[1..], q, t, d - 1);
          RunsOfSwitch(k, steps);
          if d - 1 <= |Runs(n, steps[1..])| {
            PrefixBehind(n.running, Runs(n, steps[1..]), d - 1);
          }
        } else {
          RunsOfSwitch(k, steps);
          assert Runs(k, steps)[0] == t;
        }
      } else {
        StepNoFurther(k, s, q, t);
        NoFurtherNear(k.place, n.place, q, t, d);
        RunComesNearer(n, steps[1..], q, t, d);
        assert Runs(k, steps) == Runs(n, steps[1..]);
      }
    }
  }

  lemma PrefixBehind(x: Id, s: seq<Id>, d: nat)
    requires d <= |s|
    ensures ([x] + s)[..d + 1] == [x] + s[..d]
  {
  }

  lemma RunsOfSwitch(k: State, steps: seq<Step>)
    requires Inv(k) && Possible(k, steps) && steps != [] && steps[0].Switch? && k.locks == 0
    ensures Inv(Next(k, steps[0])) && Possible(Next(k, steps[0]), steps[1..])
    ensures Runs(k, steps) == [Next(k, steps[0]).running] + Runs(Next(k, steps[0]), steps[1..])
  {
    hide Inv, Next, Enabled;
    NextKeeps(k, steps[0]);
  }

  lemma NearIsPositive(r: Ring<Entry>, t: Id, d: nat)
    requires Near(r, t, d) && !Rests(r, t)
    ensures d > 0
  {
    NearAdvance(r, t, d);
  }

  lemma NoFurtherNear(p: Place, n: Place, q: nat, t: Id, d: nat)
    requires NoFurther(p, n, q, t) && Near(ReadyList(p, q), t, d)
    ensures Near(ReadyList(n, q), t, d)
  {
  }

  lemma SwitchNext(k: State)
    requires Inv(k) && Enabled(k, Switch)
    ensures Next(k, Switch) == SwitchContext(k)
  {
    hide Inv, SwitchContext;
    InvIsSound(k);
  }

  /** Over every run in which t waits for its turn: t runs after one of the next switches, as many
      as tasks were ready with its priority at the beginning. */
  lemma TurnComes(idle: Id, before: seq<Step>, steps: seq<Step>, q: nat, t: Id)
    requires PossibleFromStart(idle, before) && Possible(End(idle, before), steps)
    requires WaitsItsTurn(End(idle, before), steps, q, t)
    ensures var k := End(idle, before); var d := |Items(k.place.state, Ready(q))|;
            |Runs(k, steps)| >= d ==> t in Runs(k, steps)[..d]
  {
    hide Inv, Sound, Next, Enabled, Near, Rests, Moves, Possible, PossibleFromStart, Runs, End;
    var k := End(idle, before);
    StandsOnList(k, q, t);
    NearAtFirst(ReadyList(k.place, q), t);
    RunComesNearer(k, steps, q, t, |Items(k.place.state, Ready(q))|);
  }

  lemma StandsOnList(k: State, q: nat, t: Id)
    requires Inv(k) && IsOn(k.place, q, t)
    ensures ReadyList(k.place, q).at <= |ReadyList(k.place, q).items| && Has(ReadyList(k.place, q).items, t)
  {
    hide Has;
    OnExactlyOneList(k.place.state, Ready(q), t);
  }
}
