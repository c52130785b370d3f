/**
  croutine.c as it updates its variables, loops and all, proved to do what module CoRoutines
  says.
*/
module CoRoutineCalls {
  import opened Ticks
  import opened TimedLists
  import opened Boards
  import opened Placement
  import opened Wrappers
  import opened CoRoutines

  class CoScheduler {
    var place: Place
    var tick: nat
    var lastTick: nat
    var current: Id
    ghost var overflows: nat

    ghost function State(): Co
      reads this
    {
      Co(place, tick, lastTick, current, overflows)
    }

    ghost predicate Valid()
      reads this
    {
      Sound(place) && tick < N && lastTick < N
    }

    /** The first call of xCoRoutineCreate. */
    constructor (t: Id, prio: nat)
      ensures Valid() && State() == Start(t, prio)
    {
      var p := if prio >= MAX_CO_ROUTINE_PRIORITIES then MAX_CO_ROUTINE_PRIORITIES - 1 else prio;
      CreateKeeps(NOTHING, t, p);
      place := Placement.Create(NOTHING, t, p);
      tick, lastTick, current, overflows := 0, 0, t, 0;
    }

    /** The other calls of xCoRoutineCreate. */
    method Create(t: Id, prio: nat)
      requires Valid() && t !in place.prio
      modifies `place
      ensures Valid() && State() == AddNew(old(State()), t, prio)
    {
      var p := prio;
      if p >= MAX_CO_ROUTINE_PRIORITIES {
        p := MAX_CO_ROUTINE_PRIORITIES - 1;
      }
      CreateKeeps(place, t, p);
      hide Sound, PutEnd;
      place := place.(prio := place.prio[t := p]);
      place := AddToReady(place, t);
    }

    /** vCoRoutineAddToDelayedList, called by the co-routine that runs. */
    method AddToDelayedList(w: nat, o: Option<nat>)
      requires Valid() && w < N && current in place.prio && current in place.state.on && place.state.on[current].Ready?
      modifies `place
      ensures Valid() && State() == AddToDelayed(old(State()), current, w, o)
    {
      hide TakeOff, PutSorted, Sound;
      AddToDelayedKeeps(State(), current, w, o);
      var wake := Plus(tick, w);
      var state := TakeOff(place.state, current);
      if wake < tick {
        state := PutSorted(state, Overflow(place), Entry(current, wake));
      } else {
        state := PutSorted(state, Current(place), Entry(current, wake));
      }
      var event := place.event;
      if o.Some? {
        event := PutSorted(event, Event(o.value), Entry(current, CoKey(place.prio[current])));
      }
      place := place.(state := state, event := event);
    }

    /** xCoRoutineRemoveFromEventList, called by an interrupt. */
    method RemoveFromEvent(o: nat) returns (higher: bool)
      requires Valid() && Items(place.event, Event(o)) != [] && current in place.prio
      modifies `place
      ensures Valid() && State() == RemoveFromEventList(old(State()), o)
      ensures higher <==> var t := Items(old(place).event, Event(o))[0].who;
                          t in place.prio && place.prio[t] >= place.prio[current]
    {
      hide Sound, TakeOff, PutEnd;
      RemoveFromEventListKeeps(State(), o);
      EventHeadWaits(place, o);
      var t := Items(place.event, Event(o))[0].who;
      var event := TakeOff(place.event, t);
      event := PutEnd(event, Pending, Entry(t, 0));
      place := place.(event := event);
      higher := place.prio[t] >= place.prio[current];
    }

    /** The inner loop of prvCheckDelayedList. */
    method ExpireDue()
      requires Valid()
      modifies `place
      ensures place == ExpireAll(old(place), tick) && Valid()
    {
      hide Sound, Awaken;
      while Items(place.state, Current(place)) != []
        invariant Sound(place)
        invariant ExpireAll(place, tick) == ExpireAll(old(place), tick)
        decreases |Items(place.state, Current(place))|
      {
        var t := Items(place.state, Current(place))[0];
        if tick < t.value {
          break;
        }
        HeadIsAlive(place);
        HeadLeaves(place);
        place := Awaken(place, t.who);
      }
    }

    /** prvCheckDelayedList */
    method CheckDelayedList(now: nat)
      requires Valid() && now < N
      modifies this
      ensures Valid() && State() == CheckDelayed(old(State()), now)
    {
      hide Sound, ExpireAll, Current, Items;
      var passed := Minus(now, lastTick);
      ghost var target := CatchUp(State(), passed);
      while passed > 0
        invariant Valid() && lastTick == old(lastTick)
        invariant CatchUp(State(), passed) == target
      {
        ghost var c := State();
        OneTickKeeps(c);
        tick := Plus(tick, 1);
        passed := passed - 1;
        if tick == 0 {
          FlipKeeps(place);
          place := place.(first := !place.first);
          overflows := overflows + 1;
        }
        ExpireDue();
        assert State() == OneTick(c);
      }
      lastTick := tick;
    }

    /** prvCheckPendingReadyList */
    method CheckPendingReadyList()
      requires Valid()
      modifies `place
      ensures Valid() && place == MovePending(old(place)) && Items(place.event, Pending) == []
    {
      hide Sound, Awaken;
      while Items(place.event, Pending) != []
        invariant Sound(place) && MovePending(place) == MovePending(old(place))
        decreases |Items(place.event, Pending)|
      {
        PendingIsAlive(place);
        PendingShrinks(place);
        place := Awaken(place, Items(place.event, Pending)[0].who);
      }
    }

    /** The choice: a ready co-routine of the highest priority, if any is ready. */
    method Choose() returns (chosen: bool)
      requires Valid()
      modifies `place, `current
      ensures Valid() && State() == Chosen(old(State()))
      ensures chosen <==> exists t :: t in place.state.on && place.state.on[t].Ready?
    {
      hide Sound, InOrder;
      LowerTopFinds(place);
      ghost var lowered := LowerTop(place);
      ChosenIsHighest(State());
      while Items(place.state, Ready(place.top)) == []
        invariant LowerTop(place) == lowered && place == old(place).(top := place.top) && current == old(current)
        decreases place.top
      {
        if place.top == 0 {
          return false;
        }
        place := place.(top := place.top - 1);
      }
      PickIsHighest(place);
      var picked := PickNext(place);
      place, current := picked.0, picked.1;
      chosen := true;
    }

    /** vCoRoutineSchedule, up to the call of the co-routine. */
    method Schedule(now: nat) returns (chosen: bool)
      requires Valid() && now < N
      modifies this
      ensures Valid() && State() == Chosen(Prepared(old(State()), now))
      ensures chosen <==> exists t :: t in place.state.on && place.state.on[t].Ready?
    {
      hide Sound, CheckDelayed, Chosen, MovePending;
      CheckPendingReadyList();
      CheckDelayedList(now);
      chosen := Choose();
    }
  }
}
