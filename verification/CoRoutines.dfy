/**
  The co-routine scheduler of croutine.c. It is called now and then, and catches up with
  all the ticks that have passed since the last time in one loop.
*/
module CoRoutines {
  import opened Ticks
  import opened TimedLists
  import opened Boards
  import opened Placement
  import opened Priorities
  import opened Wrappers
  import DL = DelayedLists

  datatype Co = Co(
    place: Place,
    tick: nat,           // xCoRoutineTickCount
    lastTick: nat,       // xLastTickCount
    current: Id,         // pxCurrentCoRoutine
    overflows: nat)      // history: how often the tick count has come round to zero

  /** One tick is counted, and the delayed lists exchanged if the count comes round. */
  function Counted(c: Co): (d: Co)
    requires c.tick < N
    ensures Sound(c.place) ==> Sound(d.place)
    ensures d.tick == Plus(c.tick, 1) < N
  {
    var tick := Plus(c.tick, 1);
    c.(place := if tick == 0 then c.place.(first := !c.place.first) else c.place, tick := tick,
       overflows := if tick == 0 then c.overflows + 1 else c.overflows)
  }

  /** What is due is readied. */
  function Settled(c: Co): Co
    requires Sound(c.place)
  {
    c.(place := ExpireAll(c.place, c.tick))
  }

  /** One turn of the outer loop of prvCheckDelayedList. */
  function OneTick(c: Co): Co
    requires Sound(c.place) && c.tick < N
  {
    Settled(Counted(c))
  }

  function CatchUp(c: Co, n: nat): Co
    requires Sound(c.place) && c.tick < N
    decreases n
  {
    if n == 0 then c
    else
      OneTickKeeps(c);
      CatchUp(OneTick(c), n - 1)
  }

  /** prvCheckDelayedList, when the kernel's tick count is now. */
  function CheckDelayed(c: Co, now: nat): Co
    requires Sound(c.place) && c.tick < N && c.lastTick < N && now < N
  {
    var d := CatchUp(c, Minus(now, c.lastTick));
    d.(lastTick := d.tick)
  }

  lemma OneTickKeeps(c: Co)
    requires Sound(c.place) && c.tick < N
    ensures Sound(OneTick(c).place) && OneTick(c).tick < N && OneTick(c).place.prio == c.place.prio
  {
    hide Sound, ExpireAll;
    var tick := Plus(c.tick, 1);
    FlipKeeps(c.place);
    ExpireAllTakesTheDue(if tick == 0 then c.place.(first := !c.place.first) else c.place, tick);
  }

  lemma {:induction false} CatchUpKeeps(c: Co, n: nat)
    requires Sound(c.place) && c.tick < N && n < N
    ensures var d := CatchUp(c, n);
            && Sound(d.place) && d.tick == Plus(c.tick, n) && d.place.prio == c.place.prio
            && d.lastTick == c.lastTick && d.current == c.current
    decreases n
  {
    hide Sound, ExpireAll;
    if n > 0 {
      OneTickKeeps(c);
      CatchUpKeeps(OneTick(c), n - 1);
    }
  }

  // ---- Catching up is calling once every tick ----

  function EveryTick(c: Co, n: nat): Co
    requires Sound(c.place) && c.tick < N && c.lastTick == c.tick
    decreases n
  {
    if n == 0 then c
    else
      CheckOnce(c);
      EveryTick(CheckDelayed(c, Plus(c.tick, 1)), n - 1)
  }

  lemma CheckOnce(c: Co)
    requires Sound(c.place) && c.tick < N && c.lastTick == c.tick
    ensures var d := CheckDelayed(c, Plus(c.tick, 1));
            && Sound(d.place) && d.tick == d.lastTick == Plus(c.tick, 1)
            && d == OneTick(c).(lastTick := Plus(c.tick, 1))
  {
    hide Sound, ExpireAll;
    CatchUpKeeps(c, 1);
    OneTickKeeps(c);
    assert CatchUp(OneTick(c), 0) == OneTick(c);
    assert Minus(Plus(c.tick, 1), c.tick) == 1;
  }

  lemma {:induction false} LastTickDoesNotMatter(c: Co, n: nat, last: nat)
    requires Sound(c.place) && c.tick < N
    ensures CatchUp(c.(lastTick := last), n) == CatchUp(c, n).(lastTick := last)
    decreases n
  {
    hide Sound, ExpireAll;
    if n > 0 {
      OneTickKeeps(c);
      assert OneTick(c.(lastTick := last)) == OneTick(c).(lastTick := last);
      LastTickDoesNotMatter(OneTick(c), n - 1, last);
    }
  }

  /** After any gap of less than a full turn of the counter, one call gives the same lists as a
      call at every tick. */
  lemma {:induction false} CatchUpIsEveryTick(c: Co, n: nat)
    requires Sound(c.place) && c.tick < N && c.lastTick == c.tick && n < N
    ensures CheckDelayed(c, Plus(c.tick, n)) == EveryTick(c, n)
    decreases n
  {
    hide Sound, ExpireAll, OneTick;
    assert Minus(Plus(c.tick, n), c.tick) == n;
    if n > 0 {
      CheckOnce(c);
      OneTickKeeps(c);
      var d := CheckDelayed(c, Plus(c.tick, 1));
      CatchUpIsEveryTick(d, n - 1);
      LastTickDoesNotMatter(OneTick(c), n - 1, d.tick);
      assert Plus(d.tick, n - 1) == Plus(c.tick, n);
      assert Minus(Plus(d.tick, n - 1), d.tick) == n - 1;
      CatchUpKeeps(OneTick(c), n - 1);
    }
  }

  // ---- The wrapped lists against unbounded time ----

  /** The delayed lists, as module DelayedLists has them; there is no cached time here. */
  function View(c: Co): DL.Delays {
    var current := Items(c.place.state, Current(c.place));
    DL.Delays(c.tick, c.overflows, DL.HeadTime(current), current, Items(c.place.state, Overflow(c.place)))
  }

  lemma OneTickIsTick(c: Co)
    requires Sound(c.place) && c.tick < N
    ensures View(OneTick(c)) == DL.Recompute(DL.Tick(View(c)).0)
  {
    hide Sound, ExpireAll;
    var tick := Plus(c.tick, 1);
    var place := if tick == 0 then c.place.(first := !c.place.first) else c.place;
    FlipKeeps(c.place);
    ExpireAllTakesTheDue(place, tick);
    DL.ExpireTakesTheDue(DL.Count(View(c)));
  }

  lemma OneTickRefines(c: Co, a: DL.Agenda)
    requires Sound(c.place) && DL.Refines(View(c), a)
    ensures Sound(OneTick(c).place) && DL.Refines(View(OneTick(c)), DL.TurnPage(a).0)
  {
    hide Sound, DL.Refines, View, DL.TurnPage;
    TickInRange(c, a);
    OneTickKeeps(c);
    OneTickIsTick(c);
    DL.TickRefines(View(c), a);
    DL.RefreshRefines(DL.Tick(View(c)).0, DL.TurnPage(a).0);
  }

  lemma TickInRange(c: Co, a: DL.Agenda)
    requires DL.Refines(View(c), a)
    ensures c.tick < N && View(c).tick == c.tick
  {
  }

  /** Through the whole catch-up the lists stay what they are on unbounded time, and the
      current list is empty whenever the counter comes round. */
  lemma {:induction false} CatchUpRefines(c: Co, a: DL.Agenda, n: nat)
    requires Sound(c.place) && c.tick < N && DL.Refines(View(c), a)
    ensures Sound(CatchUp(c, n).place) && DL.Refines(View(CatchUp(c, n)), DL.Pages(a, n))
    ensures CatchUp(c, n).tick == N - 1 ==> Items(CatchUp(c, n).place.state, Current(CatchUp(c, n).place)) == []
    decreases n
  {
    hide Sound, DL.Refines, OneTick, DL.TurnPage;
    if n > 0 {
      OneTickKeeps(c);
      OneTickRefines(c, a);
      CatchUpRefines(OneTick(c), DL.TurnPage(a).0, n - 1);
    } else if c.tick == N - 1 {
      DL.EmptyAtSwitch(View(c), a);
    }
  }

  // ---- Delaying, and being readied by an event ----

  const MAX_CO_ROUTINE_PRIORITIES: nat := 2

  /** The item value of a co-routine that waits for an event. */
  function CoKey(prio: nat): nat {
    KeyUnder(MAX_CO_ROUTINE_PRIORITIES, prio)
  }

  /** vCoRoutineAddToDelayedList */
  function AddToDelayed(c: Co, t: Id, w: nat, o: Option<nat>): Co
    requires c.tick < N && w < N && t in c.place.prio
  {
    var wake := Plus(c.tick, w);
    var place := Delay(c.place, t, wake, wake < c.tick);
    c.(place := if o.Some? then JoinEvent(place, t, o.value, CoKey(place.prio[t])) else place)
  }

  /** Only the co-routine that runs delays itself: it is ready and waits for no event. */
  lemma AddToDelayedKeeps(c: Co, t: Id, w: nat, o: Option<nat>)
    requires Sound(c.place) && c.tick < N && w < N
    requires t in c.place.prio && t in c.place.state.on && c.place.state.on[t].Ready?
    ensures Sound(AddToDelayed(c, t, w, o).place)
    ensures View(AddToDelayed(c, t, w, o)) == DL.Recompute(DL.Block(View(c), t, w))
  {
    hide InOrder, TakeOff, PutSorted, InsertSorted;
    var wake := Plus(c.tick, w);
    DelayKeeps(c.place, t, wake, wake < c.tick);
    DelayItems(c.place, t, wake, wake < c.tick);
    hide Sound;
    if o.Some? {
      var place := Delay(c.place, t, wake, wake < c.tick);
      ReadyHasNoEvent(c.place, t);
      JoinEventKeeps(place, t, o.value, CoKey(place.prio[t]));
    }
  }

  lemma ReadyHasNoEvent(p: Place, t: Id)
    requires Sound(p) && t in p.state.on && p.state.on[t].Ready?
    ensures t !in p.event.on
  {
    hide InOrder;
  }

  /** The head of an event list goes to the pending-ready list: the interrupt does not touch
      the lists of the scheduler. */
  function RemoveFromEventList(c: Co, o: nat): Co
    requires Items(c.place.event, Event(o)) != []
  {
    c.(place := ToPending(c.place, Items(c.place.event, Event(o))[0].who))
  }

  lemma RemoveFromEventListKeeps(c: Co, o: nat)
    requires Sound(c.place) && Items(c.place.event, Event(o)) != []
    ensures Sound(RemoveFromEventList(c, o).place) && View(RemoveFromEventList(c, o)) == View(c)
  {
    hide Sound, Waiting;
    EventHeadWaits(c.place, o);
    ToPendingKeeps(c.place, Items(c.place.event, Event(o))[0].who);
  }

  // ---- The scheduler ----

  /** What vCoRoutineSchedule does before it chooses: pending first, then the delays. */
  function Prepared(c: Co, now: nat): (d: Co)
    requires Sound(c.place) && c.tick < N && c.lastTick < N && now < N
    ensures Sound(d.place) && d.tick < N && d.lastTick == d.tick
  {
    MovePendingEmpties(c.place);
    var d := c.(place := MovePending(c.place));
    CatchUpKeeps(d, Minus(now, c.lastTick));
    CheckDelayed(d, now)
  }

  /** And the choice: the next co-routine of the highest priority that anything ready has. */
  function Chosen(c: Co): Co
    requires Sound(c.place)
  {
    LowerTopFinds(c.place);
    var p := LowerTop(c.place);
    if Items(p.state, Ready(p.top)) == [] then c.(place := p)
    else
      PickIsHighest(p);
      c.(place := PickNext(p).0, current := PickNext(p).1)
  }

  lemma ChosenIsHighest(c: Co)
    requires Sound(c.place)
    ensures var d := Chosen(c);
            && Sound(d.place) && d == c.(place := d.place, current := d.current)
            && (forall l :: Items(d.place.state, l) == Items(c.place.state, l))
            && d.place.state.on == c.place.state.on && d.place.event == c.place.event && d.place.prio == c.place.prio
            && d.place.top == LowerTop(c.place).top
            && d.place.first == c.place.first && (c.current in c.place.prio ==> d.current in d.place.prio)
            && if exists t :: t in c.place.state.on && c.place.state.on[t].Ready?
               then d.current in d.place.prio && d.current in d.place.state.on
                    && d.place.state.on[d.current] == Ready(d.place.prio[d.current])
                    && forall u :: u in d.place.state.on && d.place.state.on[u].Ready? ==>
                         d.place.prio[u] <= d.place.prio[d.current]
               else d.current == c.current
  {
    hide InOrder;
    LowerTopFinds(c.place);
    if Items(LowerTop(c.place).state, Ready(LowerTop(c.place).top)) != [] {
      PickIsHighest(LowerTop(c.place));
    }
  }

  // ---- Creation ----

  function Clamped(prio: nat): nat {
    if prio >= MAX_CO_ROUTINE_PRIORITIES then MAX_CO_ROUTINE_PRIORITIES - 1 else prio
  }

  /** The priority given, if there is one so high, or the highest there is. */
  lemma ClampedIsNearest(prio: nat, q: nat)
    requires q < MAX_CO_ROUTINE_PRIORITIES
    ensures Clamped(prio) < MAX_CO_ROUTINE_PRIORITIES && Clamped(prio) <= prio
    ensures prio - Clamped(prio) <= if prio < q then q - prio else prio - q
  {
  }

  /** xCoRoutineCreate */
  function AddNew(c: Co, t: Id, prio: nat): Co {
    c.(place := Create(c.place, t, Clamped(prio)))
  }

  /** After the first call of xCoRoutineCreate. */
  function Start(t: Id, prio: nat): Co {
    Co(Create(NOTHING, t, Clamped(prio)), 0, 0, t, 0)
  }
}
