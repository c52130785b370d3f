/**
  The kernel operations of tasks.c as they update the scheduler's variables, loops and all,
  proved to do what module Kernel says.
*/
module KernelCalls {
  import opened Ticks
  import opened TimedLists
  import opened Boards
  import opened Placement
  import opened Priorities
  import P = Preemption
  import K = Kernel
  import DL = DelayedLists

  const NOTIFICATION_ENTRIES: nat := 1     // configTASK_NOTIFICATION_ARRAY_ENTRIES

  class Scheduler {
    var place: Place
    var tickCount: nat
    var overflows: nat
    var nextUnblock: nat
    var suspended: nat        // uxSchedulerSuspended
    var pendedTicks: nat
    var current: Id           // pxCurrentTCB
    var yieldPending: bool    // xYieldPending
    var awaiting: set<(Id, nat)>   // the ucNotifyState entries that are taskWAITING_NOTIFICATION
    const idle: Id

    ghost function State(): K.State
      reads this
    {
      K.State(place, tickCount, overflows, nextUnblock, suspended, pendedTicks, current, idle)
    }

    ghost predicate Valid()
      reads this
    {
      Sound(place) && tickCount < N
    }

    constructor (idleTask: Id)
      ensures State() == K.Start(idleTask) && K.Inv(State()) && !yieldPending && awaiting == {}
    {
      idle := idleTask;
      place := Create(NOTHING, idleTask, 0);
      tickCount, overflows, nextUnblock, suspended, pendedTicks := 0, 0, MAX_DELAY, 0, 0;
      current, yieldPending, awaiting := idleTask, false, {};
      new;
      K.StartInv(idleTask);
    }

    /** prvResetNextTaskUnblockTime */
    method ResetNextUnblockTime()
      modifies `nextUnblock
      ensures nextUnblock == DL.HeadTime(K.OnDelayed(place))
    {
      if K.OnDelayed(place) == [] {
        nextUnblock := MAX_DELAY;
      } else {
        nextUnblock := K.OnDelayed(place)[0].value;
      }
    }

    /** The loop of xTaskIncrementTick over the tasks whose time has come; raised says whether one
        is above the running task. */
    method Expire() returns (raised: bool)
      requires Valid() && current in place.prio
      modifies `place, `nextUnblock
      ensures raised <==> P.Raises(old(place), tickCount, old(place).prio[current])
      ensures place.prio == old(place).prio
      ensures Valid() && place == ExpireAll(old(place), tickCount)
      ensures nextUnblock == DL.HeadTime(K.OnDelayed(place))
    {
      hide Sound, Awaken;
      raised := false;
      while true
        invariant Sound(place) && ExpireAll(place, tickCount) == ExpireAll(old(place), tickCount)
        invariant place.prio == old(place).prio
        invariant raised || P.Raises(place, tickCount, place.prio[current]) <==>
                  P.Raises(old(place), tickCount, place.prio[current])
        decreases |Items(place.state, Current(place))|
      {
        if K.OnDelayed(place) == [] {
          nextUnblock := MAX_DELAY;
          break;
        }
        var head := K.OnDelayed(place)[0];
        if tickCount < head.value {
          nextUnblock := head.value;
          break;
        }
        HeadIsAlive(place);
        HeadLeaves(place);
        if place.prio[head.who] > place.prio[current] {
          raised := true;
        }
        place := Awaken(place, head.who);
      }
    }

    /** xTaskIncrementTick; the result says whether to switch. */
    method IncrementTick() returns (switchRequired: bool)
      requires Valid() && current in place.prio
      modifies `place, `tickCount, `overflows, `nextUnblock, `pendedTicks
      ensures Valid() && State() == K.IncrementTick(old(State())) && place.prio == old(place).prio
      ensures switchRequired <==> suspended == 0 && (yieldPending || P.TickSwitches(old(State())))
    {
      hide Sound, ExpireAll, Current, DL.HeadTime, Items, P.Raises;
      K.TickOnceKeeps(State());
      switchRequired := false;
      if suspended == 0 {
        tickCount := Plus(tickCount, 1);
        if tickCount == 0 {
          FlipKeeps(place);
          place := place.(first := !place.first);
          overflows := overflows + 1;
          ResetNextUnblockTime();
        }
        if tickCount >= nextUnblock {
          switchRequired := Expire();
        }
        if |Items(place.state, Ready(place.prio[current]))| > 1 {
          switchRequired := true;
        }
        if yieldPending {
          switchRequired := true;
        }
      } else {
        pendedTicks := pendedTicks + 1;
      }
    }

    /** vTaskSuspendAll */
    method SuspendAll()
      modifies `suspended
      ensures State() == K.SuspendAll(old(State()))
    {
      suspended := suspended + 1;
    }

    /** The loop of xTaskResumeAll over the pending-ready list. */
    method MoveAllPending() returns (moved: bool)
      requires Valid() && current in place.prio
      modifies `place, `yieldPending
      ensures Valid() && place == MovePending(old(place)) && place.prio == old(place).prio
      ensures yieldPending <==> old(yieldPending) || P.MovesUp(old(place), place.prio[current])
      ensures moved <==> Items(old(place).event, Pending) != []
    {
      hide Sound, Awaken;
      moved := false;
      while Items(place.event, Pending) != []
        invariant Sound(place) && MovePending(place) == MovePending(old(place)) && place.prio == old(place).prio
        invariant yieldPending || P.MovesUp(place, place.prio[current]) <==>
                  old(yieldPending) || P.MovesUp(old(place), place.prio[current])
        invariant if moved then Items(old(place).event, Pending) != [] else place == old(place)
        decreases |Items(place.event, Pending)|
      {
        PendingIsAlive(place);
        PendingShrinks(place);
        var t := Items(place.event, Pending)[0].who;
        if place.prio[t] >= place.prio[current] {
          yieldPending := true;
        }
        place := Awaken(place, t);
        moved := true;
      }
    }

    /** The loop of xTaskResumeAll over the ticks that were pended. */
    method CatchUp()
      requires Valid() && suspended == 0 && current in place.prio
      modifies `place, `tickCount, `overflows, `nextUnblock, `pendedTicks, `yieldPending
      ensures Valid() && State() == K.ManyTicks(old(State()), old(pendedTicks)).(pended := 0)
      ensures yieldPending <==> old(yieldPending) || P.TicksSwitch(old(State()), old(pendedTicks))
    {
      hide Sound, K.TickOnce, P.TickSwitches;
      var counts := pendedTicks;
      ghost var target := K.ManyTicks(State(), counts);
      while counts > 0
        invariant Valid() && K.ManyTicks(State(), counts) == target && current in place.prio
        invariant yieldPending || P.TicksSwitch(State(), counts) <==>
                  old(yieldPending) || P.TicksSwitch(old(State()), old(pendedTicks))
      {
        var switchRequired := IncrementTick();
        if switchRequired {
          yieldPending := true;
        }
        counts := counts - 1;
      }
      pendedTicks := 0;
    }

    /** xTaskResumeAll; the result says whether it yields. */
    method ResumeAll() returns (alreadyYielded: bool)
      requires Valid() && suspended > 0 && current in place.prio
      modifies `place, `tickCount, `overflows, `nextUnblock, `pendedTicks, `suspended, `yieldPending
      ensures Valid() && State() == K.ResumeAll(old(State()))
      ensures yieldPending <==> old(yieldPending) || (suspended == 0 && P.ResumeSwitches(old(State())))
      ensures alreadyYielded <==> suspended == 0 && yieldPending
    {
      hide Sound, MovePending, K.ManyTicks, DL.HeadTime, Items, P.MovesUp, P.TicksSwitch;
      alreadyYielded := false;
      suspended := suspended - 1;
      if suspended == 0 {
        var moved := MoveAllPending();
        if moved {
          ResetNextUnblockTime();
        }
        if pendedTicks > 0 {
          CatchUp();
        } else {
          NoTicks(State());
        }
        if yieldPending {
          alreadyYielded := true;
        }
      }
    }

    static lemma NoTicks(k: K.State)
      requires Sound(k.place) && k.tick < N && k.pended == 0 && k.running in k.place.prio
      ensures K.ManyTicks(k, 0).(pended := 0) == k && !P.TicksSwitch(k, 0)
    {
    }

    /** vTaskStepTick */
    method StepTick(jump: nat)
      requires tickCount < N && K.CanStep(State(), jump)
      modifies `tickCount, `pendedTicks
      ensures State() == K.StepTick(old(State()), jump)
    {
      var ticks := jump;
      if Plus(tickCount, ticks) == nextUnblock {
        pendedTicks := pendedTicks + 1;
        ticks := ticks - 1;
      }
      tickCount := Plus(tickCount, ticks);
    }

    /** vTaskSwitchContext */
    method SwitchContext()
      requires K.Inv(State())
      modifies `place, `current, `yieldPending
      ensures K.Inv(State()) && State() == K.SwitchContext(old(State()))
      ensures yieldPending <==> suspended > 0
      ensures suspended == 0 ==>
                current in place.prio && current in place.state.on && place.state.on[current] == Ready(place.prio[current])
      ensures suspended == 0 ==>
                forall u :: u in place.state.on && place.state.on[u].Ready? ==>
                  u in place.prio && place.prio[u] <= place.prio[current]
    {
      hide Sound, AlwaysReady, K.Inv, InOrder;
      K.InvIsSound(State());
      if suspended == 0 {
        yieldPending := false;
        SelectHighest();
      } else {
        yieldPending := true;
        K.NoSwitch(State());
      }
    }

    /** taskSELECT_HIGHEST_PRIORITY_TASK */
    method SelectHighest()
      requires K.Inv(State()) && suspended == 0
      modifies `place, `current
      ensures K.Inv(State()) && State() == K.SwitchContext(old(State()))
      ensures current in place.prio && current in place.state.on && place.state.on[current] == Ready(place.prio[current])
      ensures forall u :: u in place.state.on && place.state.on[u].Ready? ==>
                u in place.prio && place.prio[u] <= place.prio[current]
    {
      hide Sound, AlwaysReady, K.Inv;
      K.InvIsSound(State());
      K.SwitchPicksHighest(State());
      LowerTopFinds(place);
      ghost var lowered := LowerTop(place);
      PickIsHighest(lowered);
      var top := place.top;
      while Items(place.state, Ready(top)) == []
        invariant LowerTop(place.(top := top)) == lowered
        decreases top
      {
        top := top - 1;
      }
      var picked := PickNext(place.(top := top));
      place, current := picked.0, picked.1;
    }

    /** prvAddCurrentTaskToDelayedList, with a wake time. */
    method DelayCurrent(w: nat)
      requires tickCount < N && w < N
      modifies `place, `nextUnblock
      ensures State() == K.AddToDelayed(old(State()), current, w)
    {
      hide TakeOff, PutSorted;
      var wake := Plus(tickCount, w);
      var state := TakeOff(place.state, current);
      if wake < tickCount {
        state := PutSorted(state, Overflow(place), Entry(current, wake));
      } else {
        state := PutSorted(state, Current(place), Entry(current, wake));
        if wake < nextUnblock {
          nextUnblock := wake;
        }
      }
      place := place.(state := state);
    }

    /** prvAddCurrentTaskToDelayedList */
    method AddCurrentToDelayedList(w: nat, canBlockForever: bool)
      requires tickCount < N && w < N
      modifies `place, `nextUnblock
      ensures State() == if canBlockForever then K.Wait(old(State()), current, w)
                         else K.AddToDelayed(old(State()), current, w)
    {
      hide TakeOff, PutEnd, K.AddToDelayed;
      if w == MAX_DELAY && canBlockForever {
        place := place.(state := PutEnd(TakeOff(place.state, current), Suspended, Entry(current, 0)));
      } else {
        DelayCurrent(w);
      }
    }

    /** vTaskPlaceOnEventList */
    method PlaceOnEventList(o: nat, w: nat)
      requires tickCount < N && w < N && current in place.prio
      modifies `place, `nextUnblock
      ensures State() == K.BlockOnEvent(old(State()), o, w)
    {
      hide PutSorted, PutEnd, TakeOff;
      place := place.(event := PutSorted(place.event, Event(o), Entry(current, Key(place.prio[current]))));
      AddCurrentToDelayedList(w, true);
    }

    /** vTaskPlaceOnEventListRestricted */
    method PlaceOnEventListRestricted(o: nat, w: nat, forever: bool)
      requires tickCount < N && w < N && current in place.prio
      modifies `place, `nextUnblock
      ensures State() == K.BlockOnRestricted(old(State()), o, w, forever)
    {
      hide PutEnd, PutSorted, TakeOff;
      place := place.(event := PutEnd(place.event, Event(o), Entry(current, Key(place.prio[current]))));
      var wait := w;
      if forever {
        wait := MAX_DELAY;
      }
      AddCurrentToDelayedList(wait, forever);
    }

    /** xTaskRemoveFromEventList, with tickless idle; higher says whether to yield. */
    method RemoveFromEventList(o: nat) returns (woken: Id, higher: bool)
      requires Valid() && Items(place.event, Event(o)) != [] && current in place.prio
      modifies `place, `nextUnblock, `yieldPending
      ensures woken == Items(old(place).event, Event(o))[0].who && woken in old(place).prio
      ensures State() == K.WakeFromEvent(old(State()), woken)
      ensures higher <==> old(place).prio[woken] > old(place).prio[current]
      ensures yieldPending <==> old(yieldPending) || higher
    {
      hide Sound, PutEnd, TakeOff, K.OnDelayed, DL.HeadTime;
      EventHeadWaits(place, o);
      woken := Items(place.event, Event(o))[0].who;
      higher := place.prio[woken] > place.prio[current];
      if higher {
        yieldPending := true;
      }
      place := place.(event := TakeOff(place.event, woken));
      if suspended == 0 {
        place := place.(state := TakeOff(place.state, woken));
        place := AddToReady(place, woken);
        ResetNextUnblockTime();
      } else {
        place := place.(event := PutEnd(place.event, Pending, Entry(woken, 0)));
      }
    }

    /** vTaskSuspend; the result says whether it yields. */
    method Suspend(t: Id) returns (asks: bool)
      modifies `place, `nextUnblock, `awaiting
      ensures State() == K.SuspendTo(old(State()), t)
      ensures awaiting == set w | w in old(awaiting) && !(w.0 == t && w.1 < NOTIFICATION_ENTRIES)
      ensures asks <==> t == current
    {
      hide PutEnd, TakeOff, K.OnDelayed, DL.HeadTime;
      place := place.(state := TakeOff(place.state, t));
      place := place.(event := TakeOff(place.event, t));
      place := place.(state := PutEnd(place.state, Suspended, Entry(t, 0)));
      ghost var moved := State();
      for x := 0 to NOTIFICATION_ENTRIES
        invariant State() == moved
        invariant awaiting == set w | w in old(awaiting) && !(w.0 == t && w.1 < x)
      {
        if (t, x) in awaiting {
          awaiting := awaiting - {(t, x)};
        }
      }
      ResetNextUnblockTime();
      asks := t == current;
    }

    /** The part of ulTaskGenericNotifyTake that blocks. */
    method AwaitNotice(x: nat, w: nat)
      requires tickCount < N && w < N
      modifies `place, `nextUnblock, `awaiting
      ensures State() == if w > 0 then K.Wait(old(State()), current, w) else old(State())
      ensures awaiting == old(awaiting) + {(current, x)}
    {
      awaiting := awaiting + {(current, x)};
      if w > 0 {
        AddCurrentToDelayedList(w, true);
      }
    }

    /** The part of xTaskGenericNotify that readies, with tickless idle; the result says whether it
        yields. Its assertion is the precondition. */
    method GenericNotify(t: Id, x: nat) returns (asks: bool)
      requires current in place.prio && t in place.prio && t !in place.event.on
      modifies `place, `nextUnblock, `awaiting
      ensures State() == if (t, x) in old(awaiting) then K.Refresh(K.Rouse(old(State()), t)) else old(State())
      ensures awaiting == old(awaiting) - {(t, x)}
      ensures asks <==> (t, x) in old(awaiting) && P.Above(old(place), t, old(place).prio[current])
    {
      hide PutEnd, TakeOff, K.OnDelayed, DL.HeadTime;
      asks := false;
      if (t, x) in awaiting {
        NotOnBoard(place.event, t);
        awaiting := awaiting - {(t, x)};
        place := place.(state := TakeOff(place.state, t));
        place := AddToReady(place, t);
        ResetNextUnblockTime();
        asks := place.prio[t] > place.prio[current];
      }
    }

    /** vTaskResume; the result says whether it yields. */
    method Resume(t: Id) returns (asks: bool)
      requires t != current && (K.IsSuspended(place, t) ==> t in place.prio) && current in place.prio
      modifies `place
      ensures asks <==> K.IsSuspended(old(place), t) && P.AtLeast(old(place), t, old(place).prio[current])
      ensures place == if K.IsSuspended(old(place), t) then Awaken(old(place), t) else old(place)
    {
      asks := false;
      if K.IsSuspended(place, t) {
        NotOnBoard(place.event, t);
        asks := place.prio[t] >= place.prio[current];
        hide PutEnd, TakeOff;
        place := place.(state := TakeOff(place.state, t));
        place := AddToReady(place, t);
      }
    }

    static lemma NotOnBoard(b: Board<EventList>, t: Id)
      requires t !in b.on
      ensures TakeOff(b, t) == b
    {
    }

    /** The part the priority functions share: a ready task changes its list with its priority. */
    method ChangeTaskPriority(t: Id, prio: nat)
      requires t in place.prio
      modifies `place
      ensures place == ChangePriority(old(place), t, prio)
    {
      hide PutEnd, TakeOff;
      if t in place.state.on && place.state.on[t] == Ready(place.prio[t]) {
        place := place.(state := TakeOff(place.state, t));
        place := place.(prio := place.prio[t := prio]);
        place := AddToReady(place, t);
      } else {
        place := place.(prio := place.prio[t := prio]);
      }
    }
  }
}
