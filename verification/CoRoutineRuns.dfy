/**
  Whole runs of the co-routine scheduler. Every turn of a loop of croutine.c is a step of its
  own, and an interrupt may come between any two steps. An interrupt touches event lists and
  the pending-ready list, and no other, so what a turn does to the other lists is one step.
*/
module CoRoutineRuns {
  import opened Ticks
  import opened TimedLists
  import opened Boards
  import opened Placement
  import opened Priorities
  import opened EventLists
  import opened Wrappers
  import opened CoRoutines
  import DL = DelayedLists
  import W = Whereabouts

  /** Where vCoRoutineSchedule is; the number is xPassedTicks. */
  datatype Phase =
    | Idle                      // not in it: a co-routine runs, or something else does
    | Moving                    // in the loop of prvCheckPendingReadyList
    | Counting(passed: nat)     // at the head of the outer loop of prvCheckDelayedList
    | Expiring(passed: nat)     // in its inner loop
    | Choosing

  datatype Turn = Turn(co: Co, phase: Phase)

  datatype Step =
    | Call                                 // vCoRoutineSchedule begins
    | MoveOne                              // a turn of the loop of prvCheckPendingReadyList
    | ReadTicks(now: nat)                  // the kernel's tick count is read
    | CountTick                            // the outer loop: one tick is counted
    | ExpireOne                            // a turn of the inner loop
    | EndTick                              // nothing more is due at this tick
    | EndTicks                             // no more ticks
    | Choose                               // the choice in vCoRoutineSchedule
    | DelaySelf(w: nat, list: Option<nat>) // vCoRoutineAddToDelayedList, by the co-routine that runs
    | EventFromIsr(o: nat)                 // xCoRoutineRemoveFromEventList
    | New(t: Id, prio: nat)                // xCoRoutineCreate

  /** A co-routine is ready, or delayed, and nothing else. */
  ghost predicate ReadyOrDelayed(p: Place) {
    forall t :: t in p.state.on ==> p.state.on[t].Ready? || p.state.on[t] == DelayedOne || p.state.on[t] == DelayedTwo
  }

  ghost predicate Placed(c: Co) {
    Sound(c.place) && ReadyOrDelayed(c.place) && c.tick < N && c.lastTick < N && c.current in c.place.prio
  }

  ghost predicate Inv(t: Turn) {
    && Placed(t.co)
    && (t.phase.Counting? || t.phase.Expiring? || t.co.lastTick == t.co.tick)
  }

  function OnPending(c: Co): seq<Entry> {
    Items(c.place.event, Pending)
  }

  function OnDelayed(c: Co): seq<Entry> {
    Items(c.place.state, Current(c.place))
  }

  /** Something on the current list is due. */
  predicate SomethingDue(c: Co) {
    OnDelayed(c) != [] && OnDelayed(c)[0].value <= c.tick
  }

  ghost predicate Enabled(t: Turn, s: Step) {
    match s
    case Call => t.phase.Idle?
    case MoveOne => t.phase.Moving? && OnPending(t.co) != []
    case ReadTicks(now) => t.phase.Moving? && OnPending(t.co) == [] && now < N
    case CountTick => t.phase.Counting? && t.phase.passed > 0
    case ExpireOne => t.phase.Expiring? && SomethingDue(t.co)
    case EndTick => t.phase.Expiring? && !SomethingDue(t.co)
    case EndTicks => t.phase.Counting? && t.phase.passed == 0
    case Choose => t.phase.Choosing?
    case DelaySelf(w, o) =>
      && t.phase.Idle? && 0 < w < N
      && t.co.current in t.co.place.state.on && t.co.place.state.on[t.co.current].Ready?
    case EventFromIsr(o) => Items(t.co.place.event, Event(o)) != []
    case New(u, prio) => u !in t.co.place.prio
  }

  /** The co-routine is readied. */
  function Rouse(c: Co, u: Id): Co
    requires u in c.place.prio
  {
    c.(place := Awaken(c.place, u))
  }

  function EndOf(c: Co): Co {
    c.(lastTick := c.tick)
  }

  ghost function Next(t: Turn, s: Step): Turn
    requires Inv(t) && Enabled(t, s)
  {
    hide InOrder, ReadyOrDelayed, Items;
    var c := t.co;
    match s
    case Call => t.(phase := Moving)
    case MoveOne => PendingIsAlive(c.place); t.(co := Rouse(c, OnPending(c)[0].who))
    case ReadTicks(now) => t.(phase := Counting(Minus(now, c.lastTick)))
    case CountTick => Turn(Counted(c), Expiring(t.phase.passed - 1))
    case ExpireOne => HeadIsAlive(c.place); t.(co := Rouse(c, OnDelayed(c)[0].who))
    case EndTick => t.(phase := Counting(t.phase.passed))
    case EndTicks => Turn(EndOf(c), Choosing)
    case Choose => Turn(Chosen(c), Idle)
    case DelaySelf(w, o) => t.(co := AddToDelayed(c, c.current, w, o))
    case EventFromIsr(o) => t.(co := RemoveFromEventList(c, o))
    case New(u, prio) => t.(co := AddNew(c, u, prio))
  }

  // ---- Every step keeps the invariant ----

  lemma ElsewhereReadyOrDelayed(p: Place, q: Place, u: Id)
    requires ReadyOrDelayed(p) && Elsewhere(p, q, u) && u in q.state.on
    requires q.state.on[u].Ready? || q.state.on[u] == DelayedOne || q.state.on[u] == DelayedTwo
    ensures ReadyOrDelayed(q)
  {
  }

  lemma RouseKeeps(c: Co, u: Id)
    requires Placed(c) && u in c.place.prio
    ensures Placed(Rouse(c, u))
  {
    hide Sound, ReadyOrDelayed, Awaken;
    AwakenKeeps(c.place, u);
    AwakenFrame(c.place, u);
    ElsewhereReadyOrDelayed(c.place, Awaken(c.place, u), u);
  }

  lemma AwakenFrame(p: Place, u: Id)
    requires u in p.prio
    ensures Awaken(p, u).prio == p.prio && Awaken(p, u).first == p.first
  {
    hide TakeOff, PutEnd;
  }

  lemma CountedKeeps(c: Co)
    requires Placed(c)
    ensures Placed(Counted(c))
  {
    hide Sound;
  }

  lemma ChooseKeeps(c: Co)
    requires Placed(c)
    ensures Placed(Chosen(c)) && Chosen(c).tick == c.tick && Chosen(c).lastTick == c.lastTick
  {
    hide Sound, Chosen;
    ChosenIsHighest(c);
  }

  lemma DelayKeepsPlaced(c: Co, w: nat, o: Option<nat>)
    requires Placed(c) && w < N && c.current in c.place.state.on && c.place.state.on[c.current].Ready?
    ensures Placed(AddToDelayed(c, c.current, w, o))
  {
    hide Sound, Delay, JoinEvent, ReadyOrDelayed;
    var t, wake := c.current, Plus(c.tick, w);
    DelayKeeps(c.place, t, wake, wake < c.tick);
    AddToDelayedKeeps(c, t, w, o);
    DelayedFrame(c.place, t, wake, wake < c.tick, o);
    ElsewhereReadyOrDelayed(c.place, Delay(c.place, t, wake, wake < c.tick), t);
    SameReadyOrDelayed(Delay(c.place, t, wake, wake < c.tick), AddToDelayed(c, t, w, o).place);
  }

  lemma DelayedFrame(p: Place, t: Id, value: nat, later: bool, o: Option<nat>)
    requires t in p.prio
    ensures Delay(p, t, value, later).prio == p.prio
    ensures forall e: nat, key: nat :: JoinEvent(p, t, e, key).state == p.state && JoinEvent(p, t, e, key).prio == p.prio
    ensures var d := Delay(p, t, value, later);
            forall e: nat, key: nat :: JoinEvent(d, t, e, key).state == d.state && JoinEvent(d, t, e, key).prio == p.prio
  {
    hide PutSorted, TakeOff;
  }

  lemma SameReadyOrDelayed(p: Place, q: Place)
    requires ReadyOrDelayed(p) && q.state == p.state
    ensures ReadyOrDelayed(q)
  {
  }

  lemma EventKeeps(c: Co, o: nat)
    requires Placed(c) && Items(c.place.event, Event(o)) != []
    ensures Placed(RemoveFromEventList(c, o)) && View(RemoveFromEventList(c, o)) == View(c)
  {
    hide Sound, ReadyOrDelayed, ToPending, Waiting, Items;
    RemoveFromEventListKeeps(c, o);
    EventHeadWaits(c.place, o);
    var t := Items(c.place.event, Event(o))[0].who;
    ToPendingKeeps(c.place, t);
    PendingFrame(c.place, t);
    SameReadyOrDelayed(c.place, ToPending(c.place, t));
  }

  lemma PendingFrame(p: Place, t: Id)
    ensures ToPending(p, t).prio == p.prio
  {
    hide TakeOff, PutEnd;
  }

  lemma AddKeeps(c: Co, u: Id, prio: nat)
    requires Placed(c) && u !in c.place.prio
    ensures Placed(AddNew(c, u, prio)) && View(AddNew(c, u, prio)) == View(c)
  {
    hide Sound, ReadyOrDelayed, Create, View;
    CreateKeeps(c.place, u, Clamped(prio));
    CreateFrame(c.place, u, Clamped(prio));
    ElsewhereReadyOrDelayed(c.place, Create(c.place, u, Clamped(prio)), u);
    AddView(c, u, prio);
  }

  lemma CreateFrame(p: Place, u: Id, prio: nat)
    ensures Create(p, u, prio).prio == p.prio[u := prio] && Create(p, u, prio).event == p.event
  {
    hide PutEnd;
  }

  lemma AddView(c: Co, u: Id, prio: nat)
    ensures View(AddNew(c, u, prio)) == View(c)
  {
    hide DL.HeadTime;
  }

  lemma InvParts(t: Turn)
    requires Inv(t)
    ensures Placed(t.co) && Sound(t.co.place) && t.co.tick < N && t.co.lastTick < N && t.co.current in t.co.place.prio
  {
  }

  lemma NextKeeps(t: Turn, s: Step)
    requires Inv(t) && Enabled(t, s)
    ensures Inv(Next(t, s))
  {
    hide Placed, Sound, Rouse, Counted, Chosen, AddToDelayed, RemoveFromEventList, AddNew, Items;
    InvParts(t);
    match s
    case Call =>
    case MoveOne =>
      PendingIsAlive(t.co.place);
      RouseKeeps(t.co, OnPending(t.co)[0].who);
      RouseFrame(t.co, OnPending(t.co)[0].who);
    case ReadTicks(now) =>
    case CountTick => CountedKeeps(t.co);
    case ExpireOne => HeadIsAlive(t.co.place); RouseKeeps(t.co, OnDelayed(t.co)[0].who);
    case EndTick =>
    case EndTicks => EndKeeps(t.co);
    case Choose => ChooseKeeps(t.co);
    case DelaySelf(w, o) => DelayKeepsPlaced(t.co, w, o); StepFrame(t.co, t.co.current, w, o, 0, 0);
    case EventFromIsr(o) => EventKeeps(t.co, o); StepFrame(t.co, t.co.current, 0, None, o, 0);
    case New(u, prio) => AddKeeps(t.co, u, prio); StepFrame(t.co, u, 0, None, 0, prio);
  }

  lemma RouseFrame(c: Co, u: Id)
    requires u in c.place.prio
    ensures Rouse(c, u).tick == c.tick && Rouse(c, u).lastTick == c.lastTick
  {
    hide Awaken;
  }

  lemma EndKeeps(c: Co)
    requires Placed(c)
    ensures Placed(EndOf(c)) && EndOf(c).lastTick == EndOf(c).tick
  {
    hide Sound, ReadyOrDelayed;
  }

  lemma StepFrame(c: Co, u: Id, w: nat, l: Option<nat>, o: nat, prio: nat)
    ensures AddNew(c, u, prio).tick == c.tick && AddNew(c, u, prio).lastTick == c.lastTick
    ensures c.tick < N && w < N && u in c.place.prio ==>
              AddToDelayed(c, u, w, l).tick == c.tick && AddToDelayed(c, u, w, l).lastTick == c.lastTick
    ensures Items(c.place.event, Event(o)) != [] ==>
              RemoveFromEventList(c, o).tick == c.tick && RemoveFromEventList(c, o).lastTick == c.lastTick
  {
    hide Create, Delay, JoinEvent, ToPending, Items;
  }

  // ---- Every step against unbounded time ----

  /** Between the counting of a tick and the last co-routine that is due, the delayed lists are
      the agenda with those still to be readied in front. */
  ghost predicate Agrees(t: Turn, a: DL.Agenda)
    requires Inv(t)
  {
    InvParts(t);
    DL.Refines(View(if t.phase.Expiring? then Settled(t.co) else t.co), a)
  }

  /** What a step means on unbounded time. */
  ghost function AgendaNext(t: Turn, s: Step, a: DL.Agenda): DL.Agenda {
    match s
    case MoveOne => if OnPending(t.co) != [] then DL.Forget(a, OnPending(t.co)[0].who) else a
    case CountTick => DL.TurnPage(a).0
    case DelaySelf(w, o) => DL.BlockUntil(a, t.co.current, a.now + w)
    case _ => a
  }

  lemma RouseRefines(c: Co, u: Id, a: DL.Agenda)
    requires Sound(c.place) && u in c.place.prio && DL.Refines(View(c), a)
    ensures DL.Refines(View(Rouse(c, u)), DL.Forget(a, u))
  {
    hide Sound, DL.Refines, Awaken, View, DL.Forget, DL.Leave, DL.Recompute;
    RouseLeaves(c, u);
    DL.LeaveRefines(View(c), a, u);
    DL.RefreshRefines(DL.Leave(View(c), u), DL.Forget(a, u));
  }

  lemma RouseLeaves(c: Co, u: Id)
    requires Sound(c.place) && u in c.place.prio
    ensures View(Rouse(c, u)) == DL.Recompute(DL.Leave(View(c), u))
  {
    hide InOrder, Without;
    AwakenItems(c.place, u, Current(c.place));
    AwakenItems(c.place, u, Overflow(c.place));
    hide Sound;
  }

  /** Readying one that is due leaves the same to be reached. */
  lemma ExpireOneSettles(c: Co)
    requires Sound(c.place) && SomethingDue(c) && OnDelayed(c)[0].who in c.place.prio
    ensures var d := Rouse(c, OnDelayed(c)[0].who); Sound(d.place) && Settled(d) == Settled(c)
  {
    hide Sound, Awaken;
    HeadLeaves(c.place);
  }

  lemma NothingDueSettles(c: Co)
    requires Sound(c.place) && !SomethingDue(c)
    ensures Settled(c) == c
  {
    hide Sound, Awaken;
  }

  /** What does not show on the delayed lists does not show when they are settled. */
  lemma SettledView(c: Co, d: Co)
    requires Sound(c.place) && Sound(d.place) && View(c) == View(d)
    ensures View(Settled(c)) == View(Settled(d))
  {
    hide Sound, ExpireAll, DL.HeadTime, Due;
    ExpireAllTakesTheDue(c.place, c.tick);
    ExpireAllTakesTheDue(d.place, d.tick);
  }

  lemma DelayRefines(c: Co, a: DL.Agenda, w: nat, o: Option<nat>)
    requires Placed(c) && 0 < w < N && c.current in c.place.state.on && c.place.state.on[c.current].Ready?
    requires DL.Refines(View(c), a)
    ensures DL.Refines(View(AddToDelayed(c, c.current, w, o)), DL.BlockUntil(a, c.current, a.now + w))
  {
    hide InOrder, DL.Refines, AddToDelayed, DL.Block, DL.BlockUntil, Has, ReadyOrDelayed;
    AddToDelayedKeeps(c, c.current, w, o);
    assert InOrder(c.place.state) by { SoundIsValid(c.place); }
    OnExactlyOneList(c.place.state, Current(c.place), c.current);
    OnExactlyOneList(c.place.state, Overflow(c.place), c.current);
    hide Sound;
    NotOnAgenda(View(c), a, c.current);
    DL.BlockRefines(View(c), a, c.current, w);
    DL.RefreshRefines(DL.Block(View(c), c.current, w), DL.BlockUntil(a, c.current, a.now + w));
  }

  lemma NotOnAgenda(d: DL.Delays, a: DL.Agenda, t: Id)
    requires DL.Refines(d, a) && !Has(d.current, t) && !Has(d.later, t)
    ensures !Has(a.waiting, t)
  {
    hide DL.Tidy, Has;
    DL.HasJoined(d, a, t);
  }

  lemma SameView(c: Co, d: Co)
    requires d == c.(lastTick := d.lastTick, current := d.current, place := d.place)
    requires d.place.first == c.place.first
    requires forall l :: Items(d.place.state, l) == Items(c.place.state, l)
    ensures View(d) == View(c)
  {
  }

  lemma ChooseView(c: Co)
    requires Sound(c.place)
    ensures View(Chosen(c)) == View(c)
  {
    hide Sound, Chosen, View, Items;
    ChosenIsHighest(c);
    SameView(c, Chosen(c));
  }

  /** A step that does not show on the delayed lists. */
  lemma UnseenAgrees(t: Turn, n: Turn, a: DL.Agenda)
    requires Inv(t) && Inv(n) && Agrees(t, a) && n.phase == t.phase && View(n.co) == View(t.co)
    ensures Agrees(n, a)
  {
    hide Placed, Sound, View, Settled, DL.Refines;
    InvParts(t);
    InvParts(n);
    SettledView(t.co, n.co);
  }

  lemma CountTickAgrees(t: Turn, a: DL.Agenda)
    requires Inv(t) && Agrees(t, a) && Enabled(t, CountTick) && Inv(Next(t, CountTick))
    ensures Agrees(Next(t, CountTick), DL.TurnPage(a).0)
  {
    hide Placed, Sound, View, Settled, Counted, DL.Refines, DL.TurnPage, Items;
    InvParts(t);
    OneTickRefines(t.co, a);
  }

  /** The inner loop: a turn of it, and its end. */
  lemma ExpiringAgrees(t: Turn, s: Step, a: DL.Agenda)
    requires Inv(t) && Agrees(t, a) && Enabled(t, s) && (s.ExpireOne? || s.EndTick?) && Inv(Next(t, s))
    ensures Agrees(Next(t, s), a)
  {
    hide Placed, Sound, View, Settled, Rouse, DL.Refines, Items;
    InvParts(t);
    InvParts(Next(t, s));
    if s.ExpireOne? {
      HeadIsAlive(t.co.place);
      ExpireOneSettles(t.co);
    } else {
      NothingDueSettles(t.co);
    }
  }

  lemma EndView(c: Co)
    ensures View(EndOf(c)) == View(c)
  {
  }

  /** Each turn of each loop, and each interrupt between them, does to the delayed lists what
      it means on unbounded time. */
  lemma NextRefines(t: Turn, s: Step, a: DL.Agenda)
    requires Inv(t) && Enabled(t, s) && Agrees(t, a) && Inv(Next(t, s))
    ensures Agrees(Next(t, s), AgendaNext(t, s, a))
  {
    hide Inv, Placed, Sound, View, Settled, Rouse, Counted, Chosen, AddToDelayed, RemoveFromEventList, AddNew, EndOf,
      DL.Refines, DL.TurnPage, DL.Forget, DL.BlockUntil, Items;
    InvParts(t);
    match s
    case Call =>
    case MoveOne => PendingIsAlive(t.co.place); RouseRefines(t.co, OnPending(t.co)[0].who, a);
    case ReadTicks(now) =>
    case CountTick => CountTickAgrees(t, a);
    case ExpireOne => ExpiringAgrees(t, s, a);
    case EndTick => ExpiringAgrees(t, s, a);
    case EndTicks => EndView(t.co);
    case Choose => ChooseView(t.co);
    case DelaySelf(w, o) => DelayRefines(t.co, a, w, o);
    case EventFromIsr(o) => EventKeeps(t.co, o); UnseenAgrees(t, Next(t, s), a);
    case New(u, prio) => AddKeeps(t.co, u, prio); UnseenAgrees(t, Next(t, s), a);
  }

  // ---- Whole runs ----

  ghost predicate Possible(t: Turn, steps: seq<Step>)
    requires Inv(t)
    decreases |steps|
  {
    steps == [] ||
    (Enabled(t, steps[0]) && (NextKeeps(t, steps[0]); Possible(Next(t, steps[0]), steps[1..])))
  }

  ghost function Run(t: Turn, steps: seq<Step>): Turn
    requires Inv(t) && Possible(t, steps)
    decreases |steps|
  {
    if steps == [] then t
    else
      NextKeeps(t, steps[0]);
      Run(Next(t, steps[0]), steps[1..])
  }

  ghost function AgendaRun(t: Turn, steps: seq<Step>, a: DL.Agenda): DL.Agenda
    requires Inv(t) && Possible(t, steps)
    decreases |steps|
  {
    if steps == [] then a
    else
      NextKeeps(t, steps[0]);
      AgendaRun(Next(t, steps[0]), steps[1..], AgendaNext(t, steps[0], a))
  }

  lemma {:induction false} RunRefines(t: Turn, steps: seq<Step>, a: DL.Agenda)
    requires Inv(t) && Possible(t, steps) && Agrees(t, a)
    ensures Inv(Run(t, steps)) && Agrees(Run(t, steps), AgendaRun(t, steps, a))
    decreases |steps|
  {
    hide Inv, Next, Enabled, Agrees, AgendaNext;
    if steps != [] {
      NextKeeps(t, steps[0]);
      NextRefines(t, steps[0], a);
      RunRefines(Next(t, steps[0]), steps[1..], AgendaNext(t, steps[0], a));
    }
  }

  ghost function First(t: Id, prio: nat): (n: Turn)
    ensures Inv(n)
  {
    CreateKeeps(NOTHING, t, Clamped(prio));
    Turn(Start(t, prio), Idle)
  }

  lemma StartView(t: Id, prio: nat)
    ensures var d := View(Start(t, prio));
            d.tick == 0 && d.overflows == 0 && d.nextUnblock == MAX_DELAY && |d.current| == 0 && |d.later| == 0
  {
  }

  lemma StartRefines(t: Id, prio: nat, a: DL.Agenda)
    requires a.now == 0 && |a.waiting| == 0
    ensures Agrees(First(t, prio), a)
  {
    hide Inv, DL.Refines, View, Start, Abs;
    StartView(t, prio);
    DL.TimeZero(View(Start(t, prio)), a);
    DL.NothingRefines(View(Start(t, prio)), a);
  }

  /** Over every run, wherever interrupts come: the two delayed lists are the agenda of the same
      run, apart from those that have come due at the tick just counted and are still to be
      readied; the current one is empty when the counter is about to come round; and every
      co-routine is on one ready or delayed list, once. */
  lemma CoRoutinesAreAlwaysTheAgenda(t: Id, prio: nat, steps: seq<Step>, u: Id, l: StateList)
    requires Possible(First(t, prio), steps)
    ensures var n, a := Run(First(t, prio), steps), AgendaRun(First(t, prio), steps, DL.Agenda(0, [])); var p := n.co.place;
            && Inv(n) && Agrees(n, a)
            && (n.co.tick == N - 1 && !n.phase.Expiring? ==> OnDelayed(n.co) == [])
            && (u in p.prio <==> u in p.state.on)
            && (Has(Items(p.state, l), u) <==> u in p.prio && p.state.on[u] == l)
            && Separate(Items(p.state, l))
            && (Has(Items(p.state, l), u) ==> l == Ready(p.prio[u]) || l == DelayedOne || l == DelayedTwo)
  {
    hide *;
    StartRefines(t, prio, DL.Agenda(0, []));
    RunRefines(First(t, prio), steps, DL.Agenda(0, []));
    WherePlaced(Run(First(t, prio), steps), u, l);
    EmptyBeforeWrap(Run(First(t, prio), steps), AgendaRun(First(t, prio), steps, DL.Agenda(0, [])));
  }

  lemma EmptyBeforeWrap(n: Turn, a: DL.Agenda)
    requires Inv(n) && Agrees(n, a)
    ensures n.co.tick == N - 1 && !n.phase.Expiring? ==> OnDelayed(n.co) == []
  {
    hide Placed, DL.Refines;
    InvParts(n);
    if n.co.tick == N - 1 && !n.phase.Expiring? {
      DL.EmptyAtSwitch(View(n.co), a);
    }
  }

  lemma WherePlaced(n: Turn, u: Id, l: StateList)
    requires Inv(n)
    ensures var p := n.co.place;
            && (u in p.prio <==> u in p.state.on)
            && (Has(Items(p.state, l), u) <==> u in p.prio && p.state.on[u] == l)
            && Separate(Items(p.state, l))
            && (Has(Items(p.state, l), u) ==> l == Ready(p.prio[u]) || l == DelayedOne || l == DelayedTwo)
  {
    hide InOrder, Has, Separate;
    OnExactlyOneList(n.co.place.state, l, u);
  }

  // ---- Events ----

  /** Event lists stand in the order of priorities, and every priority is one there is. */
  ghost predicate Arranged(p: Place) {
    ByPriority(p, MAX_CO_ROUTINE_PRIORITIES) && forall u :: u in p.prio ==> p.prio[u] < MAX_CO_ROUTINE_PRIORITIES
  }

  lemma SameArranged(p: Place, q: Place)
    requires Arranged(p) && q.event == p.event && q.prio == p.prio
    ensures Arranged(q)
  {
    hide ByPriority;
    SameEvents(p, q, MAX_CO_ROUTINE_PRIORITIES);
  }

  lemma AwakenArranged(p: Place, u: Id)
    requires Sound(p) && Arranged(p) && u in p.prio
    ensures Arranged(Awaken(p, u))
  {
    hide Sound, ByPriority, Awaken;
    AwakenOrdered(p, u, MAX_CO_ROUTINE_PRIORITIES);
    AwakenFrame(p, u);
  }

  lemma DelayArranged(c: Co, u: Id, w: nat, o: Option<nat>)
    requires c.tick < N && w < N && u in c.place.prio && Arranged(c.place)
    ensures Arranged(AddToDelayed(c, u, w, o).place)
  {
    hide ByPriority, Delay, JoinEvent, KeyUnder;
    var wake := Plus(c.tick, w);
    DelayedFrame(c.place, u, wake, wake < c.tick, o);
    DelayEvents(c.place, u, wake, wake < c.tick);
    var d := Delay(c.place, u, wake, wake < c.tick);
    SameArranged(c.place, d);
    if o.Some? {
      JoinOrdered(d, u, o.value, MAX_CO_ROUTINE_PRIORITIES);
    }
  }

  lemma DelayEvents(p: Place, u: Id, value: nat, later: bool)
    ensures Delay(p, u, value, later).event == p.event
  {
    hide PutSorted, TakeOff;
  }

  lemma EventArranged(c: Co, o: nat)
    requires Sound(c.place) && Items(c.place.event, Event(o)) != [] && Arranged(c.place)
    ensures Arranged(RemoveFromEventList(c, o).place)
  {
    hide Sound, ByPriority, ToPending, Items;
    ToPendingOrdered(c.place, Items(c.place.event, Event(o))[0].who, MAX_CO_ROUTINE_PRIORITIES);
    PendingFrame(c.place, Items(c.place.event, Event(o))[0].who);
  }

  lemma NewArranged(c: Co, u: Id, prio: nat)
    requires Sound(c.place) && u !in c.place.prio && Arranged(c.place)
    ensures Arranged(AddNew(c, u, prio).place)
  {
    hide InOrder, ByPriority, Create;
    CreateFrame(c.place, u, Clamped(prio));
    ClampedIsNearest(prio, 0);
    PriorityOrdered(c.place, Create(c.place, u, Clamped(prio)), u, MAX_CO_ROUTINE_PRIORITIES);
  }

  lemma ChooseArranged(c: Co)
    requires Sound(c.place) && Arranged(c.place)
    ensures Arranged(Chosen(c).place)
  {
    hide Sound, Chosen, Arranged, Items;
    ChosenIsHighest(c);
    SameArranged(c.place, Chosen(c).place);
  }

  lemma CountedArranged(c: Co)
    requires c.tick < N && Arranged(c.place)
    ensures Arranged(Counted(c).place)
  {
    hide Arranged;
    SameArranged(c.place, Counted(c).place);
  }

  lemma NextArranged(t: Turn, s: Step)
    requires Inv(t) && Enabled(t, s) && Arranged(t.co.place)
    ensures Arranged(Next(t, s).co.place)
  {
    hide Inv, Placed, Sound, Arranged, Awaken, Counted, Chosen, AddToDelayed, RemoveFromEventList, AddNew, Items;
    InvParts(t);
    match s
    case Call =>
    case MoveOne => PendingIsAlive(t.co.place); AwakenArranged(t.co.place, OnPending(t.co)[0].who);
    case ReadTicks(now) =>
    case CountTick => CountedArranged(t.co);
    case ExpireOne => HeadIsAlive(t.co.place); AwakenArranged(t.co.place, OnDelayed(t.co)[0].who);
    case EndTick =>
    case EndTicks =>
    case Choose => ChooseArranged(t.co);
    case DelaySelf(w, o) => DelayArranged(t.co, t.co.current, w, o);
    case EventFromIsr(o) => EventArranged(t.co, o);
    case New(u, prio) => NewArranged(t.co, u, prio);
  }

  lemma {:induction false} RunArranged(t: Turn, steps: seq<Step>)
    requires Inv(t) && Possible(t, steps) && Arranged(t.co.place)
    ensures Inv(Run(t, steps)) && Arranged(Run(t, steps).co.place)
    decreases |steps|
  {
    hide Inv, Next, Enabled, Arranged;
    if steps != [] {
      NextKeeps(t, steps[0]);
      NextArranged(t, steps[0]);
      RunArranged(Next(t, steps[0]), steps[1..]);
    }
  }

  lemma FirstArranged(t: Id, prio: nat)
    ensures Arranged(First(t, prio).co.place)
  {
    ClampedIsNearest(prio, 0);
  }

  /** Over every run: an event takes a waiter of the highest priority that waits on its list, and
      no other; it is pending then, and ready, with its priority, once the scheduler has moved
      what is pending. */
  lemma EventReadiesTheHighest(t: Id, prio: nat, steps: seq<Step>, o: nat, u: Id)
    requires Possible(First(t, prio), steps)
    requires Items(Run(First(t, prio), steps).co.place.event, Event(o)) != []
    ensures var p := Run(First(t, prio), steps).co.place; var h := Items(p.event, Event(o))[0].who;
            var q := RemoveFromEventList(Run(First(t, prio), steps).co, o).place;
            && h in p.prio && h in p.event.on && p.event.on[h] == Event(o)
            && (u in p.event.on && p.event.on[u] == Event(o) ==> u in p.prio && p.prio[u] <= p.prio[h])
            && h in q.event.on && q.event.on[h] == Pending && OthersStay(p.event, q.event, h) && q.state == p.state
            && Sound(q)
            && var m := MovePending(q); h in m.state.on && m.state.on[h] == Ready(p.prio[h]) && h !in m.event.on
  {
    hide Inv, Sound, First, Arranged, MovePending, ToPending, Items, Has;
    FirstArranged(t, prio);
    RunArranged(First(t, prio), steps);
    InvParts(Run(First(t, prio), steps));
    EventThenMove(Run(First(t, prio), steps).co, o, u);
  }

  lemma EventThenMove(c: Co, o: nat, u: Id)
    requires Sound(c.place) && Arranged(c.place) && Items(c.place.event, Event(o)) != []
    ensures var p, q := c.place, RemoveFromEventList(c, o).place; var h := Items(p.event, Event(o))[0].who;
            && h in p.prio && h in p.event.on && p.event.on[h] == Event(o)
            && (u in p.event.on && p.event.on[u] == Event(o) ==> u in p.prio && p.prio[u] <= p.prio[h])
            && h in q.event.on && q.event.on[h] == Pending && OthersStay(p.event, q.event, h) && q.state == p.state
            && Sound(q)
            && var m := MovePending(q); h in m.state.on && m.state.on[h] == Ready(p.prio[h]) && h !in m.event.on
  {
    hide Sound, ByPriority, MovePending, ToPending, Items, Waiting;
    var p := c.place;
    var h := Items(p.event, Event(o))[0].who;
    EventHeadWaits(p, o);
    if u in p.event.on && p.event.on[u] == Event(o) {
      HeadIsHighest(p, o, u, MAX_CO_ROUTINE_PRIORITIES);
    }
    ToPendingKeeps(p, h);
    PendingFrame(p, h);
    PendingIsReadied(ToPending(p, h), h);
  }

  // ---- Where every co-routine is ----

  /** What a step does, on maps: to the co-routine it is about, and to no other. */
  ghost function Expected(t: Turn, s: Step): W.Map {
    var c := t.co;
    var m := W.MapOf(c.place);
    match s
    case MoveOne => if OnPending(c) != [] then W.Readied(m, OnPending(c)[0].who) else m
    case ExpireOne => if OnDelayed(c) != [] then W.Readied(m, OnDelayed(c)[0].who) else m
    case DelaySelf(w, o) =>
      m.(on := m.on[c.current := if c.tick + w < N then Current(c.place) else Overflow(c.place)],
         events := if o.Some? then m.events[c.current := Event(o.value)] else m.events)
    case EventFromIsr(o) =>
      if Items(c.place.event, Event(o)) == [] then m
      else m.(events := m.events[Items(c.place.event, Event(o))[0].who := Pending])
    case New(u, prio) =>
      var p := if prio < MAX_CO_ROUTINE_PRIORITIES then prio else MAX_CO_ROUTINE_PRIORITIES - 1;
      m.(on := m.on[u := Ready(p)], prio := m.prio[u := p])
    case _ => m
  }

  lemma DelayMap(c: Co, w: nat, o: Option<nat>)
    requires Placed(c) && w < N && c.current in c.place.state.on && c.place.state.on[c.current].Ready?
    ensures W.MapOf(AddToDelayed(c, c.current, w, o).place) ==
            W.Map(c.place.state.on[c.current := if c.tick + w < N then Current(c.place) else Overflow(c.place)],
                  if o.Some? then c.place.event.on[c.current := Event(o.value)] else c.place.event.on, c.place.prio)
  {
    hide Sound, ReadyOrDelayed, Delay, JoinEvent, OthersStay, CoKey;
    var u, wake := c.current, Plus(c.tick, w);
    var d := Delay(c.place, u, wake, wake < c.tick);
    DelayKeeps(c.place, u, wake, wake < c.tick);
    DelayedFrame(c.place, u, wake, wake < c.tick, o);
    DelayEvents(c.place, u, wake, wake < c.tick);
    W.MovedOn(c.place.state, d.state, u, if c.tick + w < N then Current(c.place) else Overflow(c.place));
    if o.Some? {
      ReadyHasNoEvent(c.place, u);
      JoinEventKeeps(d, u, o.value, CoKey(d.prio[u]));
      W.MovedOn(d.event, JoinEvent(d, u, o.value, CoKey(d.prio[u])).event, u, Event(o.value));
    }
  }

  lemma ChooseMap(c: Co)
    requires Sound(c.place)
    ensures W.MapOf(Chosen(c).place) == W.MapOf(c.place)
  {
    hide Sound, Chosen, Items;
    ChosenIsHighest(c);
  }

  lemma EventMap(c: Co, o: nat)
    requires Sound(c.place) && Items(c.place.event, Event(o)) != []
    ensures W.MapOf(RemoveFromEventList(c, o).place) ==
            W.MapOf(c.place).(events := c.place.event.on[Items(c.place.event, Event(o))[0].who := Pending])
  {
    hide Sound, ToPending, Items, Waiting;
    EventHeadWaits(c.place, o);
    W.PendingMap(c.place, Items(c.place.event, Event(o))[0].who);
  }

  /** Every step moves exactly the co-routine it is about, to exactly the lists it should. */
  lemma NextIsExpected(t: Turn, s: Step)
    requires Inv(t) && Enabled(t, s)
    ensures W.MapOf(Next(t, s).co.place) == Expected(t, s)
  {
    hide Inv, Placed, Sound, Awaken, Counted, Chosen, AddToDelayed, RemoveFromEventList, AddNew, Items, W.Less;
    InvParts(t);
    match s
    case MoveOne => PendingIsAlive(t.co.place); W.AwakenMap(t.co.place, OnPending(t.co)[0].who);
    case ExpireOne => HeadIsAlive(t.co.place); W.AwakenMap(t.co.place, OnDelayed(t.co)[0].who);
    case CountTick => CountedMap(t.co);
    case Choose => ChooseMap(t.co);
    case DelaySelf(w, o) => DelayMap(t.co, w, o);
    case EventFromIsr(o) => EventMap(t.co, o);
    case New(u, prio) => NewMap(t.co, u, prio);
    case _ =>
  }

  lemma CountedMap(c: Co)
    requires c.tick < N
    ensures W.MapOf(Counted(c).place) == W.MapOf(c.place)
  {
  }

  lemma NewMap(c: Co, u: Id, prio: nat)
    requires Sound(c.place) && u !in c.place.prio
    ensures var p := if prio < MAX_CO_ROUTINE_PRIORITIES then prio else MAX_CO_ROUTINE_PRIORITIES - 1;
            W.MapOf(AddNew(c, u, prio).place) ==
            W.MapOf(c.place).(on := c.place.state.on[u := Ready(p)], prio := c.place.prio[u := p])
  {
    hide Sound, Create;
    W.CreateMap(c.place, u, Clamped(prio));
  }

  // ---- A call that nothing interrupts ----

  /** What the call in progress comes to, if the tick count it reads is now and nothing comes
      between. */
  ghost function Outcome(t: Turn, now: nat): Co
    requires Inv(t) && now < N
  {
    InvParts(t);
    var c := t.co;
    match t.phase
    case Idle => c
    case Moving => Chosen(Prepared(c, now))
    case Counting(n) => Caught(c, n)
    case Expiring(n) => SettledKeeps(c); Caught(Settled(c), n)
    case Choosing => Chosen(c)
  }

  /** What is left of the call when n ticks are to be caught up with. */
  function Caught(c: Co, n: nat): Co
    requires Sound(c.place) && c.tick < N
  {
    CaughtUpIsSound(c, n);
    Chosen(EndOf(CatchUp(c, n)))
  }

  lemma SettledKeeps(c: Co)
    requires Sound(c.place)
    ensures Sound(Settled(c).place) && Settled(c).tick == c.tick
  {
    hide Sound, ExpireAll;
    ExpireAllTakesTheDue(c.place, c.tick);
  }

  lemma {:induction false} CaughtUpIsSound(c: Co, n: nat)
    requires Sound(c.place) && c.tick < N
    ensures Sound(CatchUp(c, n).place) && CatchUp(c, n).tick < N
    decreases n
  {
    hide Sound, OneTick;
    if n > 0 {
      OneTickKeeps(c);
      CaughtUpIsSound(OneTick(c), n - 1);
    }
  }

  /** The steps of the call itself. */
  predicate OfTheCall(s: Step, now: nat) {
    s.MoveOne? || s == ReadTicks(now) || s.CountTick? || s.ExpireOne? || s.EndTick? || s.EndTicks? || s.Choose?
  }

  lemma MoveOneOutcome(c: Co, now: nat)
    requires Placed(c) && OnPending(c) != [] && c.lastTick == c.tick && OnPending(c)[0].who in c.place.prio && now < N
    requires Placed(Rouse(c, OnPending(c)[0].who))
    ensures Prepared(Rouse(c, OnPending(c)[0].who), now) == Prepared(c, now)
  {
    hide Sound, Awaken, ReadyOrDelayed, CatchUp;
    RouseFrame(c, OnPending(c)[0].who);
    assert MovePending(c.place) == MovePending(Awaken(c.place, OnPending(c)[0].who));
  }

  lemma ReadTicksOutcome(c: Co, now: nat)
    requires Placed(c) && OnPending(c) == [] && now < N
    ensures Chosen(Prepared(c, now)) == Caught(c, Minus(now, c.lastTick))
  {
    hide Sound, Awaken, ReadyOrDelayed, CatchUp, Chosen;
    assert MovePending(c.place) == c.place;
    assert c.(place := c.place) == c;
  }

  lemma CountTickOutcome(c: Co, n: nat)
    requires Placed(c) && n > 0
    ensures Sound(Counted(c).place) && Sound(Settled(Counted(c)).place)
    ensures Caught(Settled(Counted(c)), n - 1) == Caught(c, n)
  {
    hide Sound, Counted, Settled, ReadyOrDelayed, Chosen;
    OneTickKeeps(c);
  }

  lemma EndTicksOutcome(c: Co)
    requires Placed(c)
    ensures Placed(EndOf(c)) && Chosen(EndOf(c)) == Caught(c, 0)
  {
    hide Sound, ReadyOrDelayed, Chosen;
  }

  /** Every step of a call keeps what the call comes to. */
  lemma StepKeepsOutcome(t: Turn, s: Step, now: nat)
    requires Inv(t) && Enabled(t, s) && OfTheCall(s, now) && now < N && Inv(Next(t, s))
    ensures Outcome(Next(t, s), now) == Outcome(t, now)
  {
    hide Placed, Sound, Prepared, Caught, Chosen, EndOf, Counted, Settled, Rouse, Items;
    var c := t.co;
    InvParts(t);
    InvParts(Next(t, s));
    match s
    case MoveOne => PendingIsAlive(c.place); MoveOneOutcome(c, now);
    case ReadTicks(m) => ReadTicksOutcome(c, now);
    case CountTick => CountTickOutcome(c, t.phase.passed);
    case ExpireOne => HeadIsAlive(c.place); ExpireOneSettles(c);
    case EndTick => NothingDueSettles(c);
    case EndTicks => EndTicksOutcome(c);
    case Choose =>
  }

  /** The step that a call takes next. */
  function Onward(t: Turn, now: nat): Step
    requires !t.phase.Idle?
  {
    match t.phase
    case Moving => if OnPending(t.co) != [] then MoveOne else ReadTicks(now)
    case Counting(n) => if n > 0 then CountTick else EndTicks
    case Expiring(n) => if SomethingDue(t.co) then ExpireOne else EndTick
    case Choosing => Choose
  }

  function Rank(f: Phase): nat {
    match f case Idle => 0 case Choosing => 1 case Counting(n) => 2 case Expiring(n) => 2 case Moving => 3
  }

  /** Ticks left, and what is left of the loop. */
  function TicksLeft(f: Phase): nat {
    match f case Counting(n) => n case Expiring(n) => n case _ => 0
  }

  function LoopLeft(t: Turn): nat {
    match t.phase
    case Moving => |OnPending(t.co)|
    case Expiring(n) => 1 + |OnDelayed(t.co)|
    case _ => 0
  }

  lemma OnwardIsNearer(t: Turn, now: nat)
    requires Inv(t) && !t.phase.Idle? && now < N
    ensures Enabled(t, Onward(t, now)) && OfTheCall(Onward(t, now), now)
    ensures var n := Next(t, Onward(t, now));
            && Inv(n)
            && (Rank(n.phase) < Rank(t.phase) ||
                (Rank(n.phase) == Rank(t.phase) &&
                 (TicksLeft(n.phase) < TicksLeft(t.phase) ||
                  (TicksLeft(n.phase) == TicksLeft(t.phase) && LoopLeft(n) < LoopLeft(t)))))
  {
    hide Placed, Sound, Chosen, EndOf, Counted, Awaken, Items;
    InvParts(t);
    NextKeeps(t, Onward(t, now));
    match t.phase
    case Moving =>
      if OnPending(t.co) != [] {
        PendingIsAlive(t.co.place);
        PendingShrinks(t.co.place);
      }
    case Expiring(n) =>
      if SomethingDue(t.co) {
        HeadIsAlive(t.co.place);
        HeadLeaves(t.co.place);
      }
    case _ =>
  }

  /** The steps of the rest of a call that nothing interrupts. */
  ghost function RestOfCall(t: Turn, now: nat): seq<Step>
    requires Inv(t) && now < N
    decreases Rank(t.phase), TicksLeft(t.phase), LoopLeft(t)
  {
    hide Inv, Next, Enabled;
    if t.phase.Idle? then []
    else
      OnwardIsNearer(t, now);
      [Onward(t, now)] + RestOfCall(Next(t, Onward(t, now)), now)
  }

  /** A call that nothing interrupts comes to an end, and to what it is said to come to. */
  lemma {:induction false} RestIsOutcome(t: Turn, now: nat)
    requires Inv(t) && now < N
    ensures Possible(t, RestOfCall(t, now))
    ensures Run(t, RestOfCall(t, now)) == Turn(Outcome(t, now), Idle)
    decreases Rank(t.phase), TicksLeft(t.phase), LoopLeft(t)
  {
    hide Inv, Next, Enabled, Onward, OfTheCall;
    if !t.phase.Idle? {
      OnwardIsNearer(t, now);
      var s := Onward(t, now);
      var n := Next(t, s);
      StepKeepsOutcome(t, s, now);
      RestIsOutcome(n, now);
      assert RestOfCall(t, now)[1..] == RestOfCall(n, now);
    }
  }

  /** The steps of one call of vCoRoutineSchedule, with nothing between them, are the call. */
  lemma CallIsItsSteps(c: Co, now: nat)
    requires Inv(Turn(c, Idle)) && now < N
    ensures var t := Turn(c, Idle); var steps := [Call] + RestOfCall(Turn(c, Moving), now);
            && Possible(t, steps)
            && Run(t, steps) == Turn(Chosen(Prepared(c, now)), Idle)
  {
    hide Placed, Prepared, Chosen, RestOfCall;
    var rest := RestOfCall(Turn(c, Moving), now);
    InvParts(Turn(c, Idle));
    RestIsOutcome(Turn(c, Moving), now);
    assert ([Call] + rest)[1..] == rest;
  }
}
