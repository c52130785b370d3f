/**
  One task against the clock, over kernel runs: from the moment it blocks for w ticks it waits
  until exactly w ticks later, however the rest of the system goes on, and is ready from then on.
*/
module Deadlines {
  import opened Rings
  import opened Ticks
  import opened TimedLists
  import opened Boards
  import opened Placement
  import opened Priorities
  import opened Kernel
  import opened KernelTime
  import DL = DelayedLists

  /** Ready, and on no event list. */
  ghost predicate IsReady(p: Place, t: Id) {
    t in p.state.on && p.state.on[t].Ready? && t !in p.event.on
  }

  ghost predicate NotPending(p: Place, t: Id) {
    t in p.event.on ==> p.event.on[t] != Pending
  }

  /** Before the time it is due, t waits for it; from then on it is ready. */
  ghost predicate OnTime(k: State, a: DL.Agenda, t: Id, due: nat) {
    if a.now < due then Entry(t, due) in a.waiting && NotPending(k.place, t) else IsReady(k.place, t)
  }

  /** The operation is not about t: it does not ready, block, suspend or delete it. */
  ghost predicate Spares(k: State, s: Step, t: Id) {
    && !Readies(k, s, t)
    && (s.DelaySelf? || s.BlockOn? || s.BlockUnordered? || s.BlockRestricted? || s.AwaitNotice? ==> k.running != t)
    && (s.SuspendTask? || s.Remove? ==> s.t != t)
  }

  // ---- Ticks ----

  lemma {:induction false} PagesAreStrict(a: DL.Agenda, n: nat, x: Entry)
    requires DL.Tidy(a) && x in a.waiting && a.now < x.value
    ensures DL.Pages(a, n).now == a.now + n
    ensures x in DL.Pages(a, n).waiting ==> a.now + n < x.value
    decreases n
  {
    hide DL.Tidy, DL.TurnPage;
    if n > 0 {
      DL.StillWaiting(a, DL.Ticks, x);
      DL.TurnPageKeepsTidy(a);
      PageTurned(a);
      if x in DL.TurnPage(a).0.waiting {
        PagesAreStrict(DL.TurnPage(a).0, n - 1, x);
      } else {
        GoneFromPages(DL.TurnPage(a).0, n - 1, x);
      }
    }
  }

  lemma PageTurned(a: DL.Agenda)
    ensures DL.TurnPage(a).0.now == a.now + 1
    ensures forall x :: x in DL.TurnPage(a).0.waiting ==> x in a.waiting
  {
    hide Values;
  }

  lemma {:induction false} GoneFromPages(a: DL.Agenda, n: nat, x: Entry)
    requires x !in a.waiting
    ensures DL.Pages(a, n).now == a.now + n && x !in DL.Pages(a, n).waiting
    decreases n
  {
    hide DL.TurnPage;
    if n > 0 {
      PageTurned(a);
      GoneFromPages(DL.TurnPage(a).0, n - 1, x);
    }
  }

  /** What times out on a tick is ready after it. */
  lemma TimedOutIsReady(k: State, x: Entry)
    requires Sound(k.place) && k.tick < N
    requires exists i :: 0 <= i < |DL.Tick(View(k)).1| && DL.Tick(View(k)).1[i].who == x.who
    ensures IsReady(TickOnce(k).place, x.who)
  {
    hide Sound, ExpireAll, Due, Items, IsReady, DL.HeadTime;
    var tick := Plus(k.tick, 1);
    var p := if tick == 0 then k.place.(first := !k.place.first) else k.place;
    FlipKeeps(k.place);
    TimedOutIsDue(k, p, tick);
    var i :| 0 <= i < |DL.Tick(View(k)).1| && DL.Tick(View(k)).1[i].who == x.who;
    ExpiredIsReady(p, tick, i);
  }

  lemma TimedOutIsDue(k: State, p: Place, tick: nat)
    requires k.tick < N && tick == Plus(k.tick, 1)
    requires p == if tick == 0 then k.place.(first := !k.place.first) else k.place
    ensures var s, out := OnDelayed(p), DL.Tick(View(k)).1;
            && (out == [] || (out == s[..Due(s, tick)] && TickOnceExpires(k, p, tick)))
  {
    hide Due, Items;
  }

  ghost predicate TickOnceExpires(k: State, p: Place, tick: nat) {
    tick >= if tick == 0 then DL.HeadTime(OnDelayed(p)) else k.nextUnblock
  }

  lemma ExpiredIsReady(p: Place, tick: nat, i: nat)
    requires Sound(p) && i < Due(OnDelayed(p), tick)
    ensures IsReady(ExpireAll(p, tick), OnDelayed(p)[i].who)
  {
    hide Sound, ExpireAll, Due, Items;
    ExpiredIsReadyOnce(p, tick, i);
  }

  lemma ReadyStaysOnTick(k: State, t: Id)
    requires Sound(k.place) && k.tick < N && IsReady(k.place, t)
    ensures IsReady(TickOnce(k).place, t)
  {
    hide Sound, ExpireAll;
    FlipKeeps(k.place);
    var tick := Plus(k.tick, 1);
    ReadyStays(if tick == 0 then k.place.(first := !k.place.first) else k.place, tick, t);
  }

  lemma LiftHas(s: seq<Entry>, epoch: nat, x: Entry)
    requires x in Lift(s, epoch)
    ensures exists i :: 0 <= i < |s| && s[i].who == x.who
  {
    var i :| 0 <= i < |s| && Lift(s, epoch)[i] == x;
    assert s[i].who == x.who;
  }

  lemma TickOnTime(k: State, a: DL.Agenda, t: Id, due: nat)
    requires Inv(k) && k.locks == 0 && DL.Refines(View(k), a) && OnTime(k, a, t, due)
    ensures Sound(k.place) && k.tick < N && OnTime(TickOnce(k), DL.TurnPage(a).0, t, due)
  {
    hide Inv, Sound, View, TickOnce, DL.Refines, DL.TurnPage, DL.Tick, DL.Tidy, Lift, IsReady, NotPending;
    InvIsSound(k);
    InvIsTidy(k);
    ViewTick(k);
    PageTurned(a);
    TickOnceInv(k);
    LockedPending(TickOnce(k), t);
    if a.now < due {
      var x := Entry(t, due);
      RefinesIsTidy(View(k), a);
      DL.StillWaiting(a, DL.Ticks, x);
      DL.TickRefines(View(k), a);
      if x in DL.TurnPage(a).1 {
        LiftHas(DL.Tick(View(k)).1, DL.Tick(View(k)).0.overflows, x);
        TimedOutIsReady(k, x);
      }
    } else {
      ReadyStaysOnTick(k, t);
    }
  }

  lemma RefinesIsTidy(d: DL.Delays, a: DL.Agenda)
    requires DL.Refines(d, a)
    ensures DL.Tidy(a)
  {
  }

  lemma LockedPending(k: State, t: Id)
    requires Inv(k) && k.locks == 0
    ensures NotPending(k.place, t)
  {
  }

  lemma {:induction false} ManyTicksOnTime(k: State, a: DL.Agenda, n: nat, t: Id, due: nat)
    requires Inv(k) && k.locks == 0 && DL.Refines(View(k), a) && OnTime(k, a, t, due)
    ensures Sound(k.place) && k.tick < N && OnTime(ManyTicks(k, n), DL.Pages(a, n), t, due)
    decreases n
  {
    hide Inv, Sound, View, TickOnce, DL.Refines, DL.TurnPage, OnTime;
    InvIsSound(k);
    InvIsTidy(k);
    if n > 0 {
      TickOnTime(k, a, t, due);
      TickOnceKeeps(k);
      TickOnceInv(k);
      TickOnceRefines(k, a);
      ManyTicksOnTime(TickOnce(k), DL.TurnPage(a).0, n - 1, t, due);
    }
  }

  // ---- Resuming the scheduler ----

  lemma {:induction false} ForgetAllSpares(a: DL.Agenda, s: seq<Entry>, x: Entry)
    requires DL.Tidy(a) && !Has(s, x.who)
    ensures x in a.waiting ==> x in DL.ForgetAll(a, s).waiting
    ensures DL.ForgetAll(a, s).now == a.now
    decreases |s|
  {
    hide DL.Tidy, DL.Forget;
    if s != [] {
      ForgetSpares(a, s[0].who, x);
      assert s[0].who != x.who;
      assert forall i :: 0 <= i < |s[1..]| ==> s[1..][i] == s[i + 1];
      ForgetAllSpares(DL.Forget(a, s[0].who), s[1..], x);
    }
  }

  lemma ForgetSpares(a: DL.Agenda, u: Id, x: Entry)
    requires DL.Tidy(a)
    ensures DL.Tidy(DL.Forget(a, u)) && DL.Forget(a, u).now == a.now
    ensures x in a.waiting && u != x.who ==> x in DL.Forget(a, u).waiting
  {
    hide DL.Ahead, Ascending, Separate, Without;
    DL.ForgetKeepsTidy(a, u);
    WithoutMembers(a.waiting, u, x);
  }

  lemma {:induction false} ReadyStaysOnMove(p: Place, t: Id)
    requires Sound(p) && IsReady(p, t)
    ensures IsReady(MovePending(p), t)
    decreases |Items(p.event, Pending)|
  {
    hide Sound, Awaken;
    if Items(p.event, Pending) != [] {
      PendingIsAlive(p);
      PendingShrinks(p);
      var h := Items(p.event, Pending)[0].who;
      AwakenKeeps(p, h);
      ReadyStaysOnMove(Awaken(p, h), t);
    }
  }

  lemma PendingHasNot(p: Place, t: Id)
    requires Sound(p) && NotPending(p, t)
    ensures !Has(Items(p.event, Pending), t)
  {
    hide Has, Separate;
    OnExactlyOneList(p.event, Pending, t);
  }

  lemma ResumeOnTime(k: State, a: DL.Agenda, t: Id, due: nat)
    requires Inv(k) && k.locks == 1 && DL.Refines(View(k), a) && OnTime(k, a, t, due)
    ensures OnTime(ResumeAll(k), DL.Pages(DL.ForgetAll(a, Items(k.place.event, Pending)), k.pended), t, due)
  {
    hide Inv, Sound, View, Unlock, ManyTicks, MovePending, Has, Items, NotPending, DL.Refines, DL.Tidy, DL.Pages, IsReady;
    InvIsSound(k);
    InvIsTidy(k);
    var s := Items(k.place.event, Pending);
    RefinesIsTidy(View(k), a);
    if a.now < due {
      PendingHasNot(k.place, t);
      ForgetAllSpares(a, s, Entry(t, due));
    } else {
      ForgetAllNow(a, s);
      ReadyStaysOnMove(k.place, t);
    }
    UnlockPlace(k);
    UnlockInv(k);
    LockedPending(Unlock(k), t);
    UnlockRefines(k, a);
    ManyTicksOnTime(Unlock(k), DL.ForgetAll(a, s), k.pended, t, due);
    hide OnTime;
    ResumedOnTime(ManyTicks(Unlock(k), k.pended), DL.Pages(DL.ForgetAll(a, s), k.pended), t, due);
  }

  lemma ForgetAllNow(a: DL.Agenda, s: seq<Entry>)
    ensures DL.ForgetAll(a, s).now == a.now
    decreases |s|
  {
  }

  lemma UnlockPlace(k: State)
    requires Sound(k.place)
    ensures Unlock(k).place == MovePending(k.place)
  {
    hide Sound, MovePending;
  }

  lemma ResumedOnTime(k: State, a: DL.Agenda, t: Id, due: nat)
    requires OnTime(k, a, t, due)
    ensures OnTime(k.(pended := 0), a, t, due)
  {
  }

  // ---- The other operations ----

  /** Nothing changes for t, as far as this module looks. */
  ghost predicate Same(p: Place, q: Place, t: Id) {
    (IsReady(p, t) ==> IsReady(q, t)) && (NotPending(p, t) ==> NotPending(q, t))
  }

  lemma ElsewhereSpares(p: Place, q: Place, u: Id, t: Id)
    requires Elsewhere(p, q, u) && u != t
    ensures Same(p, q, t)
  {
  }

  lemma SameTwice(p: Place, q: Place, r: Place, t: Id)
    requires Same(p, q, t) && Same(q, r, t)
    ensures Same(p, r, t)
  {
  }

  lemma DelaySpares(k: State, u: Id, w: nat, t: Id)
    requires Inv(k) && Blockable(k, u) && w < N && u != t
    ensures Same(k.place, AddToDelayed(k, u, w).place, t) && Same(k.place, Forever(k, u).place, t)
  {
    hide Sound, Delay, BlockForever, AlwaysReady, Elsewhere, Same;
    var wake := Plus(k.tick, w);
    DelayKeeps(k.place, u, wake, wake < k.tick);
    BlockForeverKeeps(k.place, u);
    ElsewhereSpares(k.place, AddToDelayed(k, u, w).place, u, t);
    ElsewhereSpares(k.place, Forever(k, u).place, u, t);
  }

  lemma JoinSpares(d: State, u: Id, o: nat, value: nat, t: Id)
    requires Inv(d) && Waits(d, u) && u != t
    ensures Same(d.place, Join(d, u, o, value).place, t) && Same(d.place, JoinEnd(d, u, o, value).place, t)
  {
    hide Sound, JoinEvent, JoinUnordered, AlwaysReady, Elsewhere, Same, Waiting;
    JoinEventKeeps(d.place, u, o, value);
    JoinUnorderedKeeps(d.place, u, o, value);
    ElsewhereSpares(d.place, Join(d, u, o, value).place, u, t);
    ElsewhereSpares(d.place, JoinEnd(d, u, o, value).place, u, t);
  }

  lemma WaitSpares(k: State, u: Id, w: nat, t: Id)
    requires Inv(k) && Blockable(k, u) && k.tick < N && w < N && u != t
    ensures Same(k.place, Wait(k, u, w).place, t)
  {
    hide Inv, Blockable, AddToDelayed, Forever, Same;
    DelaySpares(k, u, w, t);
  }

  lemma JoiningSpares(k: State, o: nat, value: nat, w: nat, forever: bool, t: Id)
    requires Inv(k) && Blockable(k, k.running) && k.running in k.place.prio && k.tick < N && w < N && k.running != t
    ensures Same(k.place, BlockOnEvent(k, o, w).place, t) && Same(k.place, BlockInGroup(k, o, value, w).place, t)
    ensures Same(k.place, BlockOnRestricted(k, o, w, forever).place, t)
  {
    hide Inv, Waits, Blockable, Wait, AddToDelayed, Forever, Join, JoinEnd, Key, Same;
    var u := k.running;
    var key, d, e := Key(k.place.prio[u]), Wait(k, u, w), if forever then Forever(k, u) else AddToDelayed(k, u, w);
    WaitInv(k, u, w);
    DelayInv(k, u, w);
    ForeverInv(k, u);
    WaitSpares(k, u, w, t);
    DelaySpares(k, u, w, t);
    JoinSpares(d, u, o, key, t);
    JoinSpares(d, u, o, value, t);
    JoinSpares(e, u, o, key, t);
    SameTwice(k.place, d.place, Join(d, u, o, key).place, t);
    SameTwice(k.place, d.place, JoinEnd(d, u, o, value).place, t);
    SameTwice(k.place, e.place, JoinEnd(e, u, o, key).place, t);
  }

  lemma BlockingSpares(k: State, s: Step, t: Id)
    requires Inv(k) && Enabled(k, s) && k.running != t
    requires s.DelaySelf? || s.BlockOn? || s.BlockUnordered? || s.BlockRestricted? || s.AwaitNotice?
    ensures Same(k.place, Next(k, s).place, t)
  {
    hide Inv, Enabled, Blockable, Wait, AddToDelayed, BlockOnEvent, BlockInGroup, BlockOnRestricted, SwitchContext,
      IncrementTick, ResumeAll, Same;
    RunningMayBlock(k, s);
    InvIsTidy(k);
    match s
    case DelaySelf(w) => DelaySpares(k, k.running, w, t);
    case AwaitNotice(w) => WaitSpares(k, k.running, w, t);
    case BlockOn(o, w) => JoiningSpares(k, o, 0, w, false, t);
    case BlockUnordered(o, value, w) => JoiningSpares(k, o, value, w, false, t);
    case BlockRestricted(o, w, forever) => JoiningSpares(k, o, 0, w, forever, t);
  }

  lemma RouseSpares(k: State, u: Id, t: Id)
    requires Sound(k.place) && u in k.place.prio && u != t
    ensures Same(k.place, Rouse(k, u).place, t)
  {
    hide Sound, Awaken, Elsewhere, Same;
    AwakenKeeps(k.place, u);
    ElsewhereSpares(k.place, Awaken(k.place, u), u, t);
  }

  lemma DeferSpares(k: State, u: Id, t: Id)
    requires Sound(k.place) && u in k.place.state.on && Waiting(k.place.state.on[u]) && u != t
    ensures Same(k.place, Defer(k, u).place, t)
  {
    hide Sound, ToPending, Elsewhere, Same, Waiting;
    ToPendingKeeps(k.place, u);
    ElsewhereSpares(k.place, ToPending(k.place, u), u, t);
  }

  lemma ReadyingSpares(k: State, s: Step, u: Id, t: Id)
    requires Inv(k) && Enabled(k, s) && Readies(k, s, u) && u != t
    ensures Same(k.place, Next(k, s).place, t)
  {
    hide Inv, Enabled, Sound, Rouse, Defer, Refresh, SwitchContext, IncrementTick, ResumeAll, Same;
    ReadiedWaits(k, s, u);
    InvIsSound(k);
    RefreshFrame(k);
    RefreshFrame(Rouse(k, u));
    RouseSpares(k, u, t);
    RouseSpares(Refresh(k), u, t);
    if !s.NotifyLate? {
      DeferSpares(k, u, t);
    }
  }

  lemma SuspendSpares(k: State, u: Id, t: Id)
    requires Sound(k.place) && u in k.place.prio && u != t
    ensures Same(k.place, SuspendTo(k, u).place, t) && Same(k.place, DeleteFrom(k, u).place, t)
  {
    hide Sound, Suspend, Delete, Elsewhere, Same, OnDelayed;
    SuspendKeeps(k.place, u);
    ElsewhereSpares(k.place, Suspend(k.place, u), u, t);
    DeleteKeeps(k.place, u, u == k.running);
    ElsewhereSpares(k.place, Delete(k.place, u, u == k.running), u, t);
  }

  lemma FreeSpares(k: State, t: Id)
    requires Inv(k) && Items(k.place.state, Termination) != []
    ensures Same(k.place, FreeDeleted(k).place, t)
  {
    hide Inv, Sound, Delete, Items;
    InvIsSound(k);
    DeletedIsNotIdle(k);
    var u := Items(k.place.state, Termination)[0].who;
    DeleteKeeps(k.place, u, false);
    if u == t {
      NotReadyWhenDeleted(k.place, t);
    } else {
      ElsewhereSpares(k.place, Delete(k.place, u, false), u, t);
    }
  }

  lemma NotReadyWhenDeleted(p: Place, t: Id)
    requires t in p.state.on && p.state.on[t] == Termination
    ensures !IsReady(p, t)
  {
  }

  /** A change of priority leaves what is ready ready. */
  lemma ReprioritiseSpares(k: State, u: Id, prio: nat, t: Id)
    requires Sound(k.place) && u in k.place.prio
    ensures Same(k.place, Reprioritise(k, u, prio).place, t)
  {
    hide InOrder, TakeOff, PutEnd;
    ChangePriorityKeeps(k.place, u, prio);
    if u != t {
      hide Sound, ChangePriority, Same;
      ElsewhereSpares(k.place, ChangePriority(k.place, u, prio), u, t);
    } else {
      SoundIsValid(k.place);
      MovedToEnd(k.place.state, Ready(prio), Entry(t, 0));
    }
  }

  lemma CreateSpares(k: State, u: Id, prio: nat, t: Id)
    requires Sound(k.place) && u !in k.place.prio
    ensures Same(k.place, CreateTask(k, u, prio).place, t)
  {
    hide Create, InOrder;
    CreateKeeps(k.place, u, prio);
    CreateFrame(k.place, u, prio);
    if u != t {
      hide Sound, Same, Elsewhere;
      ElsewhereSpares(k.place, Create(k.place, u, prio), u, t);
    }
  }

  lemma GoingSpares(k: State, s: Step, t: Id)
    requires Inv(k) && Enabled(k, s) && Spares(k, s, t) && (s.SuspendTask? || s.Remove?)
    ensures Same(k.place, Next(k, s).place, t)
  {
    hide Inv, Sound, SuspendTo, DeleteFrom, IncrementTick, ResumeAll, SwitchContext, Same;
    InvIsSound(k);
    SuspendSpares(k, s.t, t);
  }

  lemma StayingSpares(k: State, s: Step, t: Id)
    requires Inv(k) && Enabled(k, s) && (s.SetPriority? || s.New? || s.CleanUp?)
    ensures Same(k.place, Next(k, s).place, t)
  {
    hide Inv, Sound, Reprioritise, CreateTask, FreeDeleted, IncrementTick, ResumeAll, SwitchContext, Same;
    InvIsSound(k);
    match s
    case SetPriority(u, prio) => ReprioritiseSpares(k, u, prio, t);
    case New(u, prio) => CreateSpares(k, u, prio, t);
    case CleanUp => FreeSpares(k, t);
  }

  lemma SameAsIs(p: Place, t: Id)
    ensures Same(p, p, t)
  {
  }

  lemma SwitchSpares(k: State, t: Id)
    requires Inv(k)
    ensures Same(k.place, SwitchContext(k).place, t)
  {
    hide InOrder;
    LowerTopFinds(k.place);
    if k.locks == 0 {
      PickIsHighest(LowerTop(k.place));
    }
  }

  // ---- On unbounded time ----

  lemma BlockUntilSpares(a: DL.Agenda, u: Id, w: nat, x: Entry)
    ensures x in a.waiting ==> x in DL.BlockUntil(a, u, a.now + w).waiting
    ensures DL.BlockUntil(a, u, a.now + w).now == a.now
  {
    hide Values, InsertPos, Splice;
    SpliceFacts(a.waiting, InsertPos(Values(a.waiting), a.now + w), Entry(u, a.now + w));
  }

  /** An operation that spares a task leaves its time on the agenda. */
  lemma AgendaSpares(k: State, s: Step, a: DL.Agenda, x: Entry)
    requires Inv(k) && Enabled(k, s) && Spares(k, s, x.who) && DL.Tidy(a)
    requires !s.Tick? && !s.Resume? && !s.SkipTicks?
    ensures x in a.waiting ==> x in AgendaNext(k, s, a).waiting
    ensures AgendaNext(k, s, a).now == a.now
  {
    hide Inv, DL.Tidy, DL.BlockUntil, DL.Forget, IsSuspended, IsBlocked, DL.ForgetAll, DL.Pages;
    if s.DelaySelf? || s.BlockOn? || s.BlockUnordered? || s.BlockRestricted? || s.AwaitNotice? {
      BlockUntilSpares(a, k.running, s.w, x);
    } else if s.SuspendTask? || s.Remove? {
      ForgetSpares(a, s.t, x);
    } else {
      ForgetSpares(a, Readied(k, s), x);
    }
  }

  lemma SkippingOnTime(k: State, a: DL.Agenda, jump: nat, t: Id, due: nat)
    requires k.tick + jump < N && CanStep(k, jump) && DL.Refines(View(k), a) && OnTime(k, a, t, due)
    ensures OnTime(StepTick(k, jump), DL.Pages(a, Skipped(k, jump)), t, due)
  {
    hide DL.Pages, DL.Tidy, StepTick, Skipped, CanStep, Lift, Within, DL.HeadTime, IsReady, NotPending;
    var b, n := DL.Pages(a, Skipped(k, jump)), StepTick(k, jump);
    SkippingRefines(k, jump, a);
    assert b.waiting == a.waiting;
    if a.now < due {
      PagesAreStrict(a, Skipped(k, jump), Entry(t, due));
    } else {
      PagesGoOn(a, Skipped(k, jump));
    }
  }

  lemma {:induction false} PagesGoOn(a: DL.Agenda, n: nat)
    ensures DL.Pages(a, n).now == a.now + n
    decreases n
  {
    hide DL.TurnPage;
    if n > 0 {
      PageTurned(a);
      PagesGoOn(DL.TurnPage(a).0, n - 1);
    }
  }

  // ---- Every operation, and every run ----

  lemma CountingOnTime(k: State, s: Step, a: DL.Agenda, t: Id, due: nat)
    requires Inv(k) && Enabled(k, s) && DL.Refines(View(k), a) && OnTime(k, a, t, due) && (s.Tick? || s.Resume?)
    ensures OnTime(Next(k, s), AgendaNext(k, s, a), t, due)
  {
    hide Inv, Sound, View, DL.Refines, TickOnce, Unlock, ManyTicks, MovePending, DL.ForgetAll, DL.Pages, DL.TurnPage;
    if s.Tick? && k.locks == 0 {
      TickOnTime(k, a, t, due);
    } else if s.Resume? && k.locks == 1 {
      hide ResumeAll, OnTime;
      ResumeOnTime(k, a, t, due);
    }
  }

  lemma SparingOnTime(k: State, s: Step, a: DL.Agenda, t: Id, due: nat)
    requires Inv(k) && Enabled(k, s) && DL.Refines(View(k), a) && OnTime(k, a, t, due) && Spares(k, s, t)
    requires !s.Tick? && !s.Resume? && !s.SkipTicks? && Same(k.place, Next(k, s).place, t)
    ensures OnTime(Next(k, s), AgendaNext(k, s, a), t, due)
  {
    hide Inv, Enabled, View, DL.Refines, Spares, Next, AgendaNext, DL.Tidy, IsReady, NotPending;
    RefinesIsTidy(View(k), a);
    AgendaSpares(k, s, a, Entry(t, due));
  }

  lemma NextOnTime(k: State, s: Step, a: DL.Agenda, t: Id, due: nat)
    requires Inv(k) && Enabled(k, s) && DL.Refines(View(k), a) && OnTime(k, a, t, due) && Spares(k, s, t)
    ensures OnTime(Next(k, s), AgendaNext(k, s, a), t, due)
  {
    if s.Tick? || s.Resume? {
      CountingOnTime(k, s, a, t, due);
    } else if s.SkipTicks? {
      SkipStepOnTime(k, s.jump, a, t, due);
    } else {
      NextSpares(k, s, t);
      SparingOnTime(k, s, a, t, due);
    }
  }

  lemma SkipStepOnTime(k: State, jump: nat, a: DL.Agenda, t: Id, due: nat)
    requires Inv(k) && Enabled(k, SkipTicks(jump)) && DL.Refines(View(k), a) && OnTime(k, a, t, due)
    ensures OnTime(Next(k, SkipTicks(jump)), AgendaNext(k, SkipTicks(jump), a), t, due)
  {
    hide Inv, View, DL.Refines, OnTime, DL.Pages, StepTick;
    SkippingOnTime(k, a, jump, t, due);
  }

  lemma NextSpares(k: State, s: Step, t: Id)
    requires Inv(k) && Enabled(k, s) && Spares(k, s, t) && !s.Tick? && !s.Resume? && !s.SkipTicks?
    ensures Same(k.place, Next(k, s).place, t)
  {
    hide Inv, Same;
    SameAsIs(k.place, t);
    if s.DelaySelf? || s.BlockOn? || s.BlockUnordered? || s.BlockRestricted? || s.AwaitNotice? {
      BlockingSpares(k, s, t);
    } else if s.SuspendTask? || s.Remove? {
      GoingSpares(k, s, t);
    } else if s.SetPriority? || s.New? || s.CleanUp? {
      StayingSpares(k, s, t);
    } else if Readies(k, s, Readied(k, s)) {
      ReadyingSpares(k, s, Readied(k, s), t);
    } else {
      RestSpares(k, s, t);
    }
  }

  lemma RestSpares(k: State, s: Step, t: Id)
    requires Inv(k) && Enabled(k, s) && !Readies(k, s, Readied(k, s))
    requires s.Lock? || s.Switch? || s.WakeHead? || s.WakeUnordered? || s.ResumeTask? || s.ResumeFromIsr? || s.Abort? ||
             s.Notify? || s.NotifyFromIsr? || s.NotifyLate?
    ensures Same(k.place, Next(k, s).place, t)
  {
    hide Inv, Same, SwitchContext;
    SameAsIs(k.place, t);
    if s.Switch? {
      SwitchSpares(k, t);
    }
  }

  /** No operation of the run is about t. */
  ghost predicate Spared(k: State, steps: seq<Step>, t: Id)
    requires Inv(k) && Possible(k, steps)
    decreases |steps|
  {
    steps == [] ||
    (Spares(k, steps[0], t) && (NextKeeps(k, steps[0]); Spared(Next(k, steps[0]), steps[1..], t)))
  }

  lemma {:induction false} RunOnTime(k: State, steps: seq<Step>, a: DL.Agenda, t: Id, due: nat)
    requires Inv(k) && Possible(k, steps) && DL.Refines(View(k), a) && OnTime(k, a, t, due) && Spared(k, steps, t)
    ensures OnTime(Run(k, steps), AgendaRun(k, steps, a), t, due)
    decreases |steps|
  {
    hide Inv, Next, Enabled, DL.Refines, AgendaNext, View, OnTime, Spares;
    if steps != [] {
      NextKeeps(k, steps[0]);
      NextRefines(k, steps[0], a);
      NextOnTime(k, steps[0], a, t, due);
      RunOnTime(Next(k, steps[0]), steps[1..], AgendaNext(k, steps[0], a), t, due);
    }
  }

  /** Where the agenda has a task, the kernel has it: on the list of the epoch in which it is due. */
  lemma WaitsOnItsList(k: State, a: DL.Agenda, x: Entry)
    requires Sound(k.place) && DL.Refines(View(k), a) && x in a.waiting
    ensures x.who in k.place.state.on
    ensures k.place.state.on[x.who] ==
            if x.value < Abs(k.overflows + 1, 0) then Current(k.place) else Overflow(k.place)
  {
    var i :| 0 <= i < |a.waiting| && a.waiting[i] == x;
    EntryOnView(View(k), a, i);
    hide Sound, DL.Refines, InOrder, Abs, Has;
    SoundIsValid(k.place);
    OnExactlyOneList(k.place.state, Current(k.place), x.who);
    OnExactlyOneList(k.place.state, Overflow(k.place), x.who);
  }

  lemma EntryOnView(d: DL.Delays, a: DL.Agenda, i: nat)
    requires DL.Refines(d, a) && i < |a.waiting|
    ensures if a.waiting[i].value < Abs(d.overflows + 1, 0) then Has(d.current, a.waiting[i].who)
            else Has(d.later, a.waiting[i].who)
  {
    hide DL.Tidy, Within, DL.HeadTime, Abs;
    DL.OnCurrentIffThisEpoch(d, a, i);
    var n := |d.current|;
    if i < n {
      assert d.current[i].who == a.waiting[i].who;
    } else {
      assert a.waiting[i] == Lift(d.later, d.overflows + 1)[i - n];
      assert d.later[i - n].who == a.waiting[i].who;
    }
  }

  /** The running task blocks for w ticks, and not for ever. */
  ghost predicate BlocksFor(s: Step, w: nat) {
    match s
    case DelaySelf(v) => v == w
    case BlockOn(o, v) => v == w < MAX_DELAY
    case BlockUnordered(o, value, v) => v == w < MAX_DELAY
    case BlockRestricted(o, v, forever) => v == w && !forever
    case AwaitNotice(v) => v == w < MAX_DELAY
    case _ => false
  }

  /** A wait of at least one tick begins on time. */
  lemma BlockingOnTime(k: State, s: Step, a: DL.Agenda, w: nat)
    requires Inv(k) && Enabled(k, s) && DL.Refines(View(k), a) && BlocksFor(s, w) && 0 < w
    ensures OnTime(Next(k, s), AgendaNext(k, s, a), k.running, a.now + w)
  {
    hide Inv, View, DL.Refines, Next, AgendaNext, Enabled, BlocksFor, NotPending;
    BlocksUntil(k, s, a, w);
    JoinsAgenda(a, k.running, w);
    BlockedNotPending(k, s, w);
  }

  lemma BlocksUntil(k: State, s: Step, a: DL.Agenda, w: nat)
    requires Inv(k) && Enabled(k, s) && BlocksFor(s, w)
    ensures AgendaNext(k, s, a) == DL.BlockUntil(a, k.running, a.now + w)
  {
    hide Inv, Enabled, DL.BlockUntil;
  }

  lemma JoinsAgenda(a: DL.Agenda, t: Id, w: nat)
    ensures Entry(t, a.now + w) in DL.BlockUntil(a, t, a.now + w).waiting && DL.BlockUntil(a, t, a.now + w).now == a.now
  {
    hide Values, InsertPos, Splice;
    SpliceFacts(a.waiting, InsertPos(Values(a.waiting), a.now + w), Entry(t, a.now + w));
  }

  lemma BlockedNotPending(k: State, s: Step, w: nat)
    requires Inv(k) && Enabled(k, s) && BlocksFor(s, w)
    ensures NotPending(Next(k, s).place, k.running)
  {
    hide Sound, AlwaysReady, NonePending, InOrder, Items;
  }

  /** Whenever a task blocks for w ticks, at least one, and whatever happens then that is not
      about this task, interrupts, suspensions and all: it is on a delayed list as long as the
      kernel's clock shows less than w ticks more, on the one of the epoch in which it is due;
      and ready, on no event list, from then on. */
  lemma WaitsExactly(idle: Id, before: seq<Step>, s: Step, w: nat, after: seq<Step>)
    requires PossibleFromStart(idle, before)
    requires Enabled(End(idle, before), s) && BlocksFor(s, w) && 0 < w
    requires Inv(Next(End(idle, before), s)) && Possible(Next(End(idle, before), s), after)
    requires Spared(Next(End(idle, before), s), after, End(idle, before).running)
    ensures var k := End(idle, before); var n, t, due := Run(Next(k, s), after), k.running, Clock(k) + w;
            if Clock(n) < due
            then t in n.place.state.on && n.place.state.on[t] ==
                 if due < Abs(n.overflows + 1, 0) then Current(n.place) else Overflow(n.place)
            else IsReady(n.place, t)
  {
    hide *;
    var k, a := End(idle, before), AgendaOf(idle, before);
    EndRefines(idle, before);
    var m, b := Next(k, s), AgendaNext(k, s, a);
    NextRefines(k, s, a);
    BlockingOnTime(k, s, a, w);
    RunOnTime(m, after, b, k.running, a.now + w);
    RunRefines(m, after, b);
    RunKeeps(m, after);
    ClockIsNow(k, a);
    WaitsExactlyAt(Run(m, after), AgendaRun(m, after, b), k.running, a.now + w);
  }

  lemma ClockIsNow(k: State, a: DL.Agenda)
    requires DL.Refines(View(k), a)
    ensures Clock(k) == a.now
  {
    hide DL.Tidy, Lift, Within, DL.HeadTime, Abs;
  }

  lemma WaitsExactlyAt(n: State, a: DL.Agenda, t: Id, due: nat)
    requires Inv(n) && DL.Refines(View(n), a) && OnTime(n, a, t, due)
    ensures if Clock(n) < due
            then t in n.place.state.on && n.place.state.on[t] ==
                 if due < Abs(n.overflows + 1, 0) then Current(n.place) else Overflow(n.place)
            else IsReady(n.place, t)
  {
    hide Inv, Sound, View, DL.Refines, IsReady, NotPending, Clock, Abs, Current, Overflow;
    ClockIsNow(n, a);
    InvIsSound(n);
    if a.now < due {
      WaitsOnItsList(n, a, Entry(t, due));
    }
  }

  // ---- Such runs exist ----

  /** A run of two steps. */
  lemma TwoSteps(k: State, r: Step, s: Step)
    requires Inv(k) && Enabled(k, r) && Inv(Next(k, r)) && Enabled(Next(k, r), s) && Inv(Next(Next(k, r), s))
    ensures Possible(k, [r, s]) && Run(k, [r, s]) == Next(Next(k, r), s)
  {
    hide Inv, Enabled, Next;
    assert [r, s][1..] == [s] && [s][1..] == [];
    assert Possible(Next(Next(k, r), s), []) && Run(Next(Next(k, r), s), []) == Next(Next(k, r), s);
    assert Possible(Next(k, r), [s]) && Run(Next(k, r), [s]) == Next(Next(k, r), s);
  }

  /** A new task is ready. */
  lemma CreatedIsReady(k: State, t: Id, prio: nat)
    requires Sound(k.place) && t !in k.place.prio
    ensures var n := CreateTask(k, t, prio);
            && n.locks == k.locks && n.idle == k.idle && t in n.place.prio && n.place.prio[t] == prio
            && t in n.place.state.on && n.place.state.on[t] == Ready(prio)
  {
    hide Sound, Create;
    CreateFrame(k.place, t, prio);
    CreateKeeps(k.place, t, prio);
  }

  /** At the start the idle task is all there is, and the scheduler is not suspended. */
  lemma AtTheStart(idle: Id, t: Id)
    requires t != idle
    ensures Inv(Start(idle)) && Start(idle).locks == 0 && Start(idle).idle == idle && t !in Start(idle).place.prio
    ensures Enabled(Start(idle), New(t, 1)) && Next(Start(idle), New(t, 1)) == CreateTask(Start(idle), t, 1)
  {
    hide Inv, Create, CreateTask;
    StartInv(idle);
    CreateFrame(NOTHING, idle, 0);
  }

  lemma NewIsReady(idle: Id, t: Id)
    requires t != idle
    ensures Inv(Start(idle)) && Enabled(Start(idle), New(t, 1)) && Inv(Next(Start(idle), New(t, 1)))
    ensures var k := Next(Start(idle), New(t, 1));
            && k == CreateTask(Start(idle), t, 1) && k.locks == 0 && k.idle == idle
            && t in k.place.prio && k.place.prio[t] == 1 && t in k.place.state.on && k.place.state.on[t] == Ready(1)
  {
    hide Inv, Sound, Start, CreateTask, Enabled, Next;
    AtTheStart(idle, t);
    InvIsSound(Start(idle));
    NextKeeps(Start(idle), New(t, 1));
    CreatedIsReady(Start(idle), t, 1);
  }

  /** With a task of priority 1 ready, the one that runs after a context switch may wait. */
  lemma SwitchedMayWait(k: State, t: Id)
    requires Inv(k) && k.locks == 0 && t in k.place.prio && k.place.prio[t] == 1
    requires t in k.place.state.on && k.place.state.on[t] == Ready(1)
    ensures Inv(SwitchContext(k)) && Enabled(SwitchContext(k), DelaySelf(1))
  {
    hide InOrder, LowerTop;
    SwitchPicksHighest(k);
    SwitchIdle(k);
  }

  lemma SwitchIdle(k: State)
    requires Sound(k.place)
    ensures SwitchContext(k).idle == k.idle
  {
    hide Sound, LowerTop;
  }

  /** There are runs that WaitsExactly is about: a task is created and chosen, and may wait. */
  lemma SomebodyCanWait(idle: Id, t: Id)
    requires t != idle
    ensures PossibleFromStart(idle, [New(t, 1), Switch])
    ensures Enabled(End(idle, [New(t, 1), Switch]), DelaySelf(1)) && BlocksFor(DelaySelf(1), 1)
  {
    hide Inv, Start, SwitchContext, CreateTask, Enabled;
    NewIsReady(idle, t);
    var k := Next(Start(idle), New(t, 1));
    SwitchedMayWait(k, t);
    SwitchEnabled(k);
    TwoSteps(Start(idle), New(t, 1), Switch);
  }

  lemma SwitchEnabled(k: State)
    requires Inv(k)
    ensures Enabled(k, Switch) && Next(k, Switch) == SwitchContext(k)
  {
    hide Inv, SwitchContext;
    InvIsSound(k);
  }
}
