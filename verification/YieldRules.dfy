/**
  Exactly when a call asks for a context switch, and how: which calls yield to a task of the same
  priority and which only to a higher one, and whether the port is asked or a yield is pended.
*/
module YieldRules {
  import opened TimedLists
  import opened Boards
  import opened Placement
  import opened Preemption
  import K = Kernel
  import W = Whereabouts

  // ---- The loops ----

  ghost predicate PendsAtLeast(p: Place, r: nat, u: Id) {
    u in p.event.on && p.event.on[u] == Pending && u in p.prio && p.prio[u] >= r
  }

  /** The loop over the pending-ready list finds a reason if and only if something of at least the
      priority is pending. */
  lemma {:induction false} MovesUpIff(p: Place, r: nat)
    requires Sound(p)
    ensures MovesUp(p, r) <==> exists u :: PendsAtLeast(p, r, u)
    decreases |Items(p.event, Pending)|
  {
    hide Sound, Awaken;
    var s := Items(p.event, Pending);
    if s == [] {
      NothingPends(p, r);
    } else {
      PendingIsAlive(p);
      PendingShrinks(p);
      AwakenKeeps(p, s[0].who);
      MovesUpIff(Awaken(p, s[0].who), r);
      if p.prio[s[0].who] >= r {
        assert PendsAtLeast(p, r, s[0].who);
      } else {
        OthersPend(p, r, s[0].who);
      }
    }
  }

  lemma NothingPends(p: Place, r: nat)
    requires Sound(p) && Items(p.event, Pending) == []
    ensures forall u :: !PendsAtLeast(p, r, u)
  {
    hide Sound;
    NonePendingMeansEmpty(p);
  }

  lemma OthersPend(p: Place, r: nat, h: Id)
    requires Sound(p) && h in p.prio && p.prio[h] < r
    ensures (exists u :: PendsAtLeast(p, r, u)) <==> (exists u :: PendsAtLeast(Awaken(p, h), r, u))
  {
    hide Sound, Awaken;
    AwakenKeeps(p, h);
    K.AwakenFrame(p, h);
    forall u ensures PendsAtLeast(p, r, u) <==> PendsAtLeast(Awaken(p, h), r, u) {
    }
  }

  /** The loop of the tick finds one if and only if something above the priority is due. */
  lemma {:induction false} RaisesIff(p: Place, tick: nat, r: nat)
    requires Sound(p)
    ensures var s := Items(p.state, Current(p));
            Raises(p, tick, r) <==>
            exists i :: 0 <= i < Due(s, tick) && s[i].who in p.prio && p.prio[s[i].who] > r
    decreases |Items(p.state, Current(p))|
  {
    hide Sound, Awaken, Due;
    var s := Items(p.state, Current(p));
    DueAtHead(s, tick);
    if s != [] && s[0].value <= tick {
      HeadIsAlive(p);
      HeadLeaves(p);
      RaisesIff(Awaken(p, s[0].who), tick, r);
      var k := Due(s[1..], tick);
      if exists i :: 0 <= i < k && s[1..][i].who in p.prio && p.prio[s[1..][i].who] > r {
        var i :| 0 <= i < k && s[1..][i].who in p.prio && p.prio[s[1..][i].who] > r;
        assert s[i + 1] == s[1..][i];
      }
      if exists i :: 0 < i < k + 1 && s[i].who in p.prio && p.prio[s[i].who] > r {
        var i :| 0 < i < k + 1 && s[i].who in p.prio && p.prio[s[i].who] > r;
        assert s[1..][i - 1] == s[i];
      }
    }
  }

  // ---- Readying ----

  /** The calls that yield to an equal. */
  predicate ToEquals(k: K.State, step: K.Step) {
    step.ResumeTask? || (step.ResumeFromIsr? && k.locks == 0)
  }

  /** An interrupt that resumes while the scheduler is suspended leaves the question to the resume. */
  predicate Undecided(k: K.State, step: K.Step) {
    step.ResumeFromIsr? && k.locks > 0
  }

  /** A task asks the port at once, an event or an interrupt pends a yield. */
  predicate AtOnce(step: K.Step) {
    step.ResumeTask? || step.Notify? || (step.NotifyLate? && !step.isr)
  }

  /** When a call that readies t asks for a switch, and how. */
  lemma ReadyingAsksIff(s: System, step: K.Step, t: Id)
    requires K.Inv(s.kernel) && K.Enabled(s.kernel, step) && K.Readies(s.kernel, step, t) && !Owed(s)
    ensures var k, n := s.kernel, PlainNext(s, step);
            && t in k.place.prio && !n.leaving
            && var p := k.place.prio[t];
               var asks := (p > Prio(k) && !Undecided(k, step)) || (p == Prio(k) && ToEquals(k, step));
               (n.asked <==> asks && AtOnce(step)) && (n.pending <==> asks && !AtOnce(step))
  {
    hide K.Inv, K.Enabled, K.Next, K.IsSuspended, K.IsBlocked, Items, TickSwitches, ResumeSwitches, Waiting;
    K.ReadiedWaits(s.kernel, step, t);
    K.InvIsTidy(s.kernel);
  }

  // ---- The other calls ----

  /** The scheduler is resumed: it yields if and only if a yield was pending, something of at least
      the running task's priority was, or one of the ticks asks for a switch. */
  lemma ResumeAsksIff(s: System)
    requires K.Inv(s.kernel) && s.kernel.locks == 1 && !Owed(s)
    ensures var n := PlainNext(s, K.Resume);
            && (n.asked <==> (exists u :: PendsAtLeast(s.kernel.place, Prio(s.kernel), u)) || TicksAsk(s.kernel))
            && n.pending == n.asked && !n.leaving
  {
    hide K.Inv, K.Next, Sound, TicksSwitch, MovesUp, PendsAtLeast, K.Unlock;
    K.InvIsSound(s.kernel);
    K.InvIsTidy(s.kernel);
    MovesUpIff(s.kernel.place, Prio(s.kernel));
  }

  /** One of the pended ticks asks for a switch, when what was pending has been moved. */
  ghost predicate TicksAsk(k: K.State)
    requires K.Inv(k) && k.locks == 1
  {
    UnlockedInv(k);
    TicksSwitch(K.Unlock(k), k.pended)
  }

  /** A new task, a change of priority, a give, a yield, a request while the scheduler is suspended. */
  lemma OtherAsksIff(s: System, op: Op)
    requires K.Inv(s.kernel) && Enabled(s, op) && !Owed(s)
    ensures var k, n := s.kernel, Next(s, op);
            match op
            case PrioritySet(t, prio) =>
              && (n.asked <==> if t == k.running then prio < Prio(k) else prio > k.place.prio[t] && prio >= Prio(k))
              && !n.pending && !n.leaving
            case Give(prio, o) =>
              var d := Disinherited(k, prio);
              && (n.asked <==> if Items(d.place.event, Event(o)) == [] then prio < Prio(k) else HeadAbove(d, o))
              && (n.pending <==> Items(d.place.event, Event(o)) != [] && HeadAbove(d, o)) && !n.leaving
            case Yield => n == s.(asked := true)
            case Plain(step) =>
              && (step.New? ==> (n.asked <==> step.prio > Prio(k)) && !n.pending)
              && (step.Switch? && k.locks > 0 ==> n == s.(pending := true))
            case Inherit(t) => !Owed(n)
            case AfterTimeout(t, prio) => !Owed(n)
  {
    hide K.Inv, K.Enabled, K.Next, Disinherited, Woken, Reset, HeadAbove, Items, TickSwitches, ResumeSwitches, K.IsSuspended,
      K.IsBlocked;
    K.InvIsTidy(s.kernel);
    if op.Plain? && op.step.Switch? && s.kernel.locks > 0 {
      SwitchSuspended(s.kernel);
    }
  }

  lemma SwitchSuspended(k: K.State)
    requires K.Inv(k) && k.locks > 0
    ensures K.Enabled(k, K.Switch) && K.Next(k, K.Switch) == k
  {
    hide K.Inv, Sound, K.SwitchContext;
    K.InvIsSound(k);
    K.NoSwitch(k);
  }

  /** A task on its way to a yield asks for the switch by it, and is on its way no longer. */
  lemma YieldTurnsLeavingIntoAsking(s: System)
    requires K.Inv(s.kernel)
    ensures Next(s, Yield) == System(s.kernel, s.pending, true, false)
  {
    hide K.Inv;
  }

  /** A request that comes up while the scheduler is suspended is served by pending a yield. */
  lemma RequestWhileSuspendedIsPended(s: System)
    requires K.Inv(s.kernel) && s.kernel.locks > 0
    ensures Enabled(s, Plain(K.Switch)) && Next(s, Plain(K.Switch)) == System(s.kernel, true, false, s.leaving)
  {
    hide K.Inv, K.Next, TickSwitches, ResumeSwitches;
    SwitchSuspended(s.kernel);
  }

  // ---- What the calls on priorities do to tasks ----

  function Repriced(m: W.Map, t: Id, prio: nat): W.Map {
    m.(prio := m.prio[t := prio], on := if t in m.on && m.on[t].Ready? then m.on[t := Ready(prio)] else m.on)
  }

  lemma ResetMap(k: K.State, t: Id, prio: nat)
    requires K.Inv(k) && t in k.place.prio && t != k.idle
    ensures W.MapOf(Reset(k, t, prio).place) == Repriced(W.MapOf(k.place), t, prio)
  {
    hide K.Inv, K.Next;
    W.NextIsExpected(k, K.SetPriority(t, prio));
  }

  /** Inheriting, falling back and being set give exactly that task that priority, on its ready list
      if it is ready; a give gives the giver its own, and readies the first task that waits. */
  lemma PrioritiesAreGiven(s: System, op: Op)
    requires K.Inv(s.kernel) && Enabled(s, op)
    ensures var k := s.kernel; var m, n := W.MapOf(k.place), W.MapOf(Next(s, op).kernel.place);
            match op
            case PrioritySet(t, prio) => n == (if prio == k.place.prio[t] then m else Repriced(m, t, prio))
            case Inherit(t) => n == Repriced(m, t, Prio(k))
            case AfterTimeout(t, prio) => n == Repriced(m, t, prio)
            case Give(prio, o) =>
              var d := if prio < Prio(k) then Repriced(m, k.running, prio) else m;
              if Items(k.place.event, Event(o)) == [] then n == d
              else var h := Items(k.place.event, Event(o))[0].who;
                   n == if k.locks == 0 then W.Readied(d, h) else d.(events := d.events[h := Pending])
            case Yield => n == m
            case Plain(step) => true
  {
    hide K.Inv, K.Enabled, K.Next, PlainNext, Disinherited, Woken, Reset, HeadAbove, Items, Repriced, W.Readied;
    var k := s.kernel;
    K.InvIsTidy(k);
    match op
    case PrioritySet(t, prio) => ResetMap(k, t, prio);
    case Inherit(t) => ResetMap(k, t, Prio(k));
    case AfterTimeout(t, prio) => ResetMap(k, t, prio);
    case Give(prio, o) => GiveMap(s, prio, o);
    case Yield =>
    case Plain(step) =>
  }

  lemma GiveMap(s: System, prio: nat, o: nat)
    requires K.Inv(s.kernel) && Enabled(s, Give(prio, o))
    ensures var k := s.kernel; var m, n := W.MapOf(k.place), W.MapOf(Next(s, Give(prio, o)).kernel.place);
            var d := if prio < Prio(k) then Repriced(m, k.running, prio) else m;
            if Items(k.place.event, Event(o)) == [] then n == d
            else var h := Items(k.place.event, Event(o))[0].who;
                 n == if k.locks == 0 then W.Readied(d, h) else d.(events := d.events[h := Pending])
  {
    hide K.Inv, K.Next, Disinherited, Woken, HeadAbove, Items, Repriced, W.Readied;
    var k := s.kernel;
    K.InvIsTidy(k);
    DisinheritedMap(k, prio);
    var d := Disinherited(k, prio);
    if Items(k.place.event, Event(o)) != [] {
      WokenMap(d, o);
    }
  }

  lemma DisinheritedMap(k: K.State, prio: nat)
    requires K.Inv(k) && k.running != k.idle
    ensures k.running in k.place.prio
    ensures W.MapOf(Disinherited(k, prio).place) ==
            if prio < Prio(k) then Repriced(W.MapOf(k.place), k.running, prio) else W.MapOf(k.place)
    ensures Disinherited(k, prio).place.event == k.place.event && Disinherited(k, prio).locks == k.locks
  {
    hide K.Inv, Repriced, ChangePriority;
    K.InvIsTidy(k);
    ResetMap(k, k.running, prio);
    K.ChangePriorityEvents(k.place, k.running, prio);
  }

  lemma WokenMap(d: K.State, o: nat)
    requires K.Inv(d) && Items(d.place.event, Event(o)) != []
    ensures var h := Items(d.place.event, Event(o))[0].who;
            W.MapOf(Woken(d, o).place) ==
            if d.locks == 0 then W.Readied(W.MapOf(d.place), h)
            else W.MapOf(d.place).(events := d.place.event.on[h := Pending])
  {
    hide K.Inv, K.Next, Items, W.Readied;
    W.NextIsExpected(d, K.WakeHead(o));
  }
}
