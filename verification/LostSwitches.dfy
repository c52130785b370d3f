/**
  A run of the kernel in which a switch is lost. A task of priority 2 holds two mutexes. One of
  priority 1 waits for the second; one of priority 3 waits for the first, so that the holder
  inherits 3. The holder gives the first back, which readies the task of priority 3, but does not
  lower the holder, who has another mutex. Then it gives the second back.
*/
module LostSwitches {
  import opened Ticks
  import opened TimedLists
  import opened Boards
  import opened Placement
  import opened Priorities
  import opened Preemption
  import K = Kernel
  import DL = DelayedLists

  const IDLE: Id := 0
  const HOLDER: Id := 1
  const WAITER: Id := 2
  const URGENT: Id := 3

  const FIRST_MUTEX: nat := 1
  const SECOND_MUTEX: nat := 0

  // ---- Runs, one operation longer ----

  ghost predicate Leads(s: System, ops: seq<Op>, n: System) {
    K.Inv(s.kernel) && Possible(s, ops) && Run(s, ops) == n && K.Inv(n.kernel)
  }

  lemma {:induction false} OneMore(s: System, ops: seq<Op>, n: System, op: Op)
    requires Leads(s, ops, n) && Enabled(n, op)
    ensures Leads(s, ops + [op], Next(n, op))
    decreases |ops|
  {
    hide K.Inv, Enabled, Next;
    NextInv(n, op);
    if ops == [] {
      var m := Next(n, op);
      assert ([op])[1..] == [];
      assert Possible(m, []) && Run(m, []) == m;
      assert [] + [op] == [op];
    } else {
      NextInv(s, ops[0]);
      OneMore(Next(s, ops[0]), ops[1..], n, op);
      assert (ops + [op])[0] == ops[0] && (ops + [op])[1..] == ops[1..] + [op];
    }
  }

  // ---- What a state shows, and how operations change it ----

  /** Who runs, on which list everything is, and with which priority, while no tick has come and
      the scheduler is not suspended. */
  datatype Picture = Picture(runs: Id, on: map<Id, StateList>, prio: map<Id, nat>, events: map<Id, EventList>)

  ghost predicate Shows(k: K.State, v: Picture) {
    && K.Inv(k) && k.tick == 0 && k.locks == 0 && k.idle == IDLE && k.place.first
    && k.running == v.runs && k.place.state.on == v.on && k.place.prio == v.prio && k.place.event.on == v.events
  }

  function Moved(v: Picture, t: Id, l: StateList): Picture {
    v.(on := v.on[t := l])
  }

  function Ranked(v: Picture, t: Id, prio: nat): Picture {
    v.(on := v.on[t := Ready(prio)], prio := v.prio[t := prio])
  }

  function Joined(v: Picture, o: nat): Picture {
    v.(on := v.on[v.runs := DelayedOne], events := v.events[v.runs := Event(o)])
  }

  function Roused(v: Picture, t: Id): Picture
    requires t in v.prio
  {
    v.(on := v.on[t := Ready(v.prio[t])], events := map u | u in v.events && u != t :: v.events[u])
  }

  lemma MovedOn<L>(b: Board<L>, c: Board<L>, t: Id, l: L)
    requires OthersStay(b, c, t) && t in c.on && c.on[t] == l
    ensures c.on == b.on[t := l]
  {
  }

  lemma GoneOn<L>(b: Board<L>, c: Board<L>, t: Id)
    requires OthersStay(b, c, t) && t !in c.on
    ensures c.on == map u | u in b.on && u != t :: b.on[u]
    ensures t !in b.on ==> c.on == b.on
  {
  }

  lemma Creates(k: K.State, v: Picture, t: Id, prio: nat)
    requires Shows(k, v) && t !in v.prio
    ensures K.Enabled(k, K.New(t, prio))
    ensures Shows(K.Next(k, K.New(t, prio)), Ranked(v, t, prio))
  {
    hide K.Inv, Sound, Create, OthersStay;
    K.InvIsSound(k);
    K.NextKeeps(k, K.New(t, prio));
    CreateKeeps(k.place, t, prio);
    K.CreateFrame(k.place, t, prio);
    CreateFirst(k.place, t, prio);
    MovedOn(k.place.state, Create(k.place, t, prio).state, t, Ready(prio));
  }

  lemma CreateFirst(p: Place, t: Id, prio: nat)
    ensures Create(p, t, prio).first == p.first
  {
  }

  /** A switch to the one task of the highest priority. */
  lemma Switches(k: K.State, v: Picture, t: Id)
    requires Shows(k, v) && t in v.on && v.on[t].Ready?
    requires forall u :: u in v.on && u != t && v.on[u].Ready? ==> v.on[u].p < v.on[t].p
    ensures K.Enabled(k, K.Switch)
    ensures Shows(K.Next(k, K.Switch), v.(runs := t))
  {
    hide InOrder, NonePending, AlwaysReady, K.SwitchContext;
    K.NextKeeps(k, K.Switch);
    K.SwitchPicksHighest(k);
    SwitchFrame(k);
  }

  lemma SwitchFrame(k: K.State)
    requires Sound(k.place)
    ensures var n := K.SwitchContext(k);
            n.tick == k.tick && n.locks == k.locks && n.idle == k.idle && n.place.first == k.place.first &&
            n.place.event == k.place.event
  {
    hide Sound;
    LowerFrame(k.place);
  }

  lemma LowerFrame(p: Place)
    requires Sound(p)
    ensures LowerTop(p).first == p.first && LowerTop(p).event == p.event
  {
    hide Sound, LowerTop;
    LowerTopFinds(p);
  }

  /** The running task suspends itself. */
  lemma Suspends(k: K.State, v: Picture)
    requires Shows(k, v) && v.runs in v.on && v.on[v.runs].Ready? && v.runs !in v.events && v.runs != IDLE
    ensures K.Enabled(k, K.SuspendTask(v.runs))
    ensures Shows(K.Next(k, K.SuspendTask(v.runs)), Moved(v, v.runs, Suspended))
  {
    hide Sound, NonePending, AlwaysReady, Suspend, OthersStay, DL.HeadTime, Items;
    K.NextKeeps(k, K.SuspendTask(v.runs));
    SuspendKeeps(k.place, v.runs);
    SuspendFirst(k.place, v.runs);
    MovedOn(k.place.state, Suspend(k.place, v.runs).state, v.runs, Suspended);
    GoneOn(k.place.event, Suspend(k.place, v.runs).event, v.runs);
  }

  lemma SuspendFirst(p: Place, t: Id)
    ensures Suspend(p, t).first == p.first && Suspend(p, t).prio == p.prio
  {
  }

  lemma Resumes(k: K.State, v: Picture, t: Id)
    requires Shows(k, v) && t in v.on && v.on[t] == Suspended && t !in v.events && t != v.runs && t in v.prio
    ensures K.Enabled(k, K.ResumeTask(t)) && K.IsSuspended(k.place, t)
    ensures Shows(K.Next(k, K.ResumeTask(t)), Moved(v, t, Ready(v.prio[t])))
  {
    hide K.Inv, Sound, Awaken, OthersStay;
    K.InvIsSound(k);
    K.NextKeeps(k, K.ResumeTask(t));
    AwakenKeeps(k.place, t);
    AwakenFirst(k.place, t);
    MovedOn(k.place.state, Awaken(k.place, t).state, t, Ready(v.prio[t]));
    GoneOn(k.place.event, Awaken(k.place, t).event, t);
  }

  lemma AwakenFirst(p: Place, t: Id)
    requires t in p.prio
    ensures Awaken(p, t).first == p.first && Awaken(p, t).prio == p.prio
  {
  }

  /** The running task waits for event o, for 5 ticks at most. */
  lemma Waits(k: K.State, v: Picture, o: nat)
    requires Shows(k, v) && v.runs in v.on && v.on[v.runs].Ready? && v.runs !in v.events && v.runs != IDLE
    ensures K.Enabled(k, K.BlockOn(o, 5))
    ensures Shows(K.Next(k, K.BlockOn(o, 5)),
                  Joined(v, o))
  {
    hide K.Inv, Sound, Delay, JoinEvent, Key, OthersStay;
    K.InvIsSound(k);
    K.InvIsTidy(k);
    K.NextKeeps(k, K.BlockOn(o, 5));
    DelayKeeps(k.place, v.runs, 5, false);
    DelayFirst(k.place, v.runs, 5);
    var d := Delay(k.place, v.runs, 5, false);
    var key := Key(k.place.prio[v.runs]);
    JoinEventKeeps(d, v.runs, o, key);
    JoinFirst(d, v.runs, o, key);
    MovedOn(k.place.state, d.state, v.runs, DelayedOne);
    MovedOn(d.event, JoinEvent(d, v.runs, o, key).event, v.runs, Event(o));
  }

  lemma DelayFirst(p: Place, t: Id, value: nat)
    ensures Delay(p, t, value, false).first == p.first && Delay(p, t, value, false).prio == p.prio
    ensures Delay(p, t, value, false).event == p.event
  {
  }

  lemma JoinFirst(p: Place, t: Id, o: nat, key: nat)
    ensures JoinEvent(p, t, o, key).first == p.first && JoinEvent(p, t, o, key).prio == p.prio
    ensures JoinEvent(p, t, o, key).state == p.state
  {
  }

  /** A ready task gets another priority. */
  lemma Resets(k: K.State, v: Picture, t: Id, prio: nat)
    requires Shows(k, v) && t in v.prio && t in v.on && v.on[t].Ready? && t != IDLE
    ensures Shows(Reset(k, t, prio), Ranked(v, t, prio))
  {
    hide K.Inv, Sound, ChangePriority, OthersStay;
    K.InvIsSound(k);
    K.NextKeeps(k, K.SetPriority(t, prio));
    ChangePriorityKeeps(k.place, t, prio);
    K.ChangePriorityEvents(k.place, t, prio);
    ChangeFirst(k.place, t, prio);
    MovedOn(k.place.state, ChangePriority(k.place, t, prio).state, t, Ready(prio));
  }

  lemma ChangeFirst(p: Place, t: Id, prio: nat)
    requires t in p.prio
    ensures ChangePriority(p, t, prio).first == p.first
  {
  }

  /** t alone waits for event o, and is readied. */
  lemma Wakes(k: K.State, v: Picture, o: nat, t: Id)
    requires Shows(k, v) && t in v.events && v.events[t] == Event(o) && t in v.prio
    requires forall u :: u in v.events && v.events[u] == Event(o) ==> u == t
    ensures Items(k.place.event, Event(o)) != [] && Items(k.place.event, Event(o))[0].who == t
    ensures HeadAbove(k, o) <==> v.prio[t] > Prio(k)
    ensures Shows(Woken(k, o), Roused(v, t))
  {
    hide K.Inv, Sound, Awaken, Items, DL.HeadTime, OthersStay;
    K.InvIsSound(k);
    OnlyOne(k.place, o, t);
    K.NextKeeps(k, K.WakeHead(o));
    AwakenKeeps(k.place, t);
    AwakenFirst(k.place, t);
    EventHeadWaits(k.place, o);
    MovedOn(k.place.state, Awaken(k.place, t).state, t, Ready(v.prio[t]));
    GoneOn(k.place.event, Awaken(k.place, t).event, t);
  }

  lemma OnlyOne(p: Place, o: nat, t: Id)
    requires Sound(p) && t in p.event.on && p.event.on[t] == Event(o)
    requires forall u :: u in p.event.on && p.event.on[u] == Event(o) ==> u == t
    ensures Items(p.event, Event(o)) != [] && Items(p.event, Event(o))[0].who == t
  {
    hide InOrder;
    var s := Items(p.event, Event(o));
    OnExactlyOneList(p.event, Event(o), t);
    assert Has(s, s[0].who);
    OnExactlyOneList(p.event, Event(o), s[0].who);
  }

  // ---- The run ----

  ghost function After(ops: seq<Op>): (s: System)
    requires Possible(First(IDLE), ops)
  {
    Run(First(IDLE), ops)
  }

  /** The run is possible, and ends in the picture. */
  ghost predicate Reached(ops: seq<Op>, v: Picture) {
    Possible(First(IDLE), ops) && Shows(After(ops).kernel, v)
  }

  /** And no switch is owed. */
  ghost predicate SettledIn(ops: seq<Op>, v: Picture) {
    Reached(ops, v) && !Owed(After(ops))
  }

  lemma Onward(ops: seq<Op>, v: Picture, op: Op)
    requires Reached(ops, v) && Enabled(After(ops), op)
    ensures Possible(First(IDLE), ops + [op]) && After(ops + [op]) == Next(After(ops), op)
  {
    hide K.Inv, Enabled, Next, Possible, Run;
    ShownInv(After(ops).kernel, v);
    OneMore(First(IDLE), ops, After(ops), op);
  }

  lemma ShownInv(k: K.State, v: Picture)
    requires Shows(k, v)
    ensures K.Inv(k) && k.running == v.runs && k.place.prio == v.prio && k.place.state.on == v.on && k.idle == IDLE
    ensures k.locks == 0
  {
  }

  lemma Take(ops: seq<Op>, v: Picture, step: K.Step, w: Picture)
    requires Reached(ops, v) && !step.SetPriority? && K.Enabled(After(ops).kernel, step)
    requires Shows(After(ops).kernel, v) ==> Shows(K.Next(After(ops).kernel, step), w)
    ensures Reached(ops + [Plain(step)], w) && Enabled(After(ops), Plain(step))
    ensures After(ops + [Plain(step)]) == Next(After(ops), Plain(step))
  {
    hide K.Inv, K.Enabled, K.Next, Possible, After, PlainNext, Shows;
    ShownInv(After(ops).kernel, v);
    Onward(ops, v, Plain(step));
    PlainKernel(After(ops), step);
  }

  lemma TakeNew(ops: seq<Op>, v: Picture, t: Id, prio: nat)
    requires Reached(ops, v) && t !in v.prio
    ensures Reached(ops + [Plain(K.New(t, prio))], Ranked(v, t, prio))
  {
    hide K.Inv, K.Enabled, K.Next, Possible, After, Shows, Ranked;
    Creates(After(ops).kernel, v, t, prio);
    ShownInv(After(ops).kernel, v);
    Take(ops, v, K.New(t, prio), Ranked(v, t, prio));
  }

  /** After a switch nothing is owed. */
  lemma TakeSwitch(ops: seq<Op>, v: Picture, t: Id)
    requires Reached(ops, v) && t in v.on && v.on[t].Ready?
    requires forall u :: u in v.on && u != t && v.on[u].Ready? ==> v.on[u].p < v.on[t].p
    ensures Reached(ops + [Plain(K.Switch)], v.(runs := t)) && SettledIn(ops + [Plain(K.Switch)], v.(runs := t))
  {
    hide K.Inv, K.Enabled, K.Next, Possible, After, Shows;
    Switches(After(ops).kernel, v, t);
    ShownInv(After(ops).kernel, v);
    Take(ops, v, K.Switch, v.(runs := t));
    assert After(ops).kernel.locks == 0;
    SwitchPays(After(ops));
  }

  lemma SwitchPays(s: System)
    requires K.Inv(s.kernel) && s.kernel.locks == 0 && Enabled(s, Plain(K.Switch))
    ensures !Owed(Next(s, Plain(K.Switch)))
  {
    hide K.Inv, K.Next;
  }

  lemma TakeSuspend(ops: seq<Op>, v: Picture)
    requires Reached(ops, v) && v.runs in v.on && v.on[v.runs].Ready? && v.runs !in v.events && v.runs != IDLE
    ensures Reached(ops + [Plain(K.SuspendTask(v.runs))], Moved(v, v.runs, Suspended))
  {
    hide K.Inv, K.Enabled, K.Next, Possible, After, Shows, Moved;
    Suspends(After(ops).kernel, v);
    ShownInv(After(ops).kernel, v);
    Take(ops, v, K.SuspendTask(v.runs), Moved(v, v.runs, Suspended));
  }

  lemma TakeResume(ops: seq<Op>, v: Picture, t: Id)
    requires Reached(ops, v)
    requires t in v.on && v.on[t] == Suspended && t !in v.events && t != v.runs && t in v.prio
    ensures Reached(ops + [Plain(K.ResumeTask(t))], Moved(v, t, Ready(v.prio[t])))
  {
    hide K.Inv, K.Enabled, K.Next, Possible, After, Shows, Moved;
    Resumes(After(ops).kernel, v, t);
    ShownInv(After(ops).kernel, v);
    Take(ops, v, K.ResumeTask(t), Moved(v, t, Ready(v.prio[t])));
  }

  lemma TakeWait(ops: seq<Op>, v: Picture, o: nat)
    requires Reached(ops, v)
    requires v.runs in v.on && v.on[v.runs].Ready? && v.runs !in v.events && v.runs != IDLE
    ensures Reached(ops + [Plain(K.BlockOn(o, 5))],
                    Joined(v, o))
  {
    hide K.Inv, K.Enabled, K.Next, Possible, After, Shows, Joined;
    Waits(After(ops).kernel, v, o);
    ShownInv(After(ops).kernel, v);
    Take(ops, v, K.BlockOn(o, 5), Joined(v, o));
  }

  /** The holder inherits the priority of the running task. */
  lemma Inheriting(s: System, v: Picture, t: Id)
    requires Shows(s.kernel, v) && t in v.prio && t in v.on && v.on[t].Ready? && t != IDLE
    requires v.runs in v.prio && v.prio[t] < v.prio[v.runs]
    ensures K.Inv(s.kernel) && Enabled(s, Inherit(t))
    ensures Shows(Next(s, Inherit(t)).kernel, Ranked(v, t, v.prio[v.runs]))
  {
    hide K.Inv, K.Next, Shows, Ranked, Reset;
    ShownInv(s.kernel, v);
    Resets(s.kernel, v, t, v.prio[v.runs]);
  }

  lemma ReachedShows(ops: seq<Op>, v: Picture)
    requires Reached(ops, v)
    ensures Possible(First(IDLE), ops) && Shows(After(ops).kernel, v)
  {
  }

  lemma TakeOp(ops: seq<Op>, v: Picture, op: Op, w: Picture)
    requires Reached(ops, v) && K.Inv(After(ops).kernel) && Enabled(After(ops), op)
    requires Shows(Next(After(ops), op).kernel, w)
    ensures Reached(ops + [op], w)
  {
    hide K.Inv, Enabled, Next, Possible, After, Shows;
    Onward(ops, v, op);
  }

  lemma TakeInherit(ops: seq<Op>, v: Picture, t: Id)
    requires Reached(ops, v) && t in v.prio && t in v.on && v.on[t].Ready? && t != IDLE
    requires v.runs in v.prio && v.prio[t] < v.prio[v.runs]
    ensures Reached(ops + [Inherit(t)], Ranked(v, t, v.prio[v.runs]))
  {
    hide Reached, Possible, After, Shows, Ranked, Enabled, Next;
    ReachedShows(ops, v);
    Inheriting(After(ops), v, t);
    TakeOp(ops, v, Inherit(t), Ranked(v, t, v.prio[v.runs]));
  }

  /** A give that leaves the giver its priority and readies a task that is not above it. */
  lemma FirstGive(s: System, v: Picture, o: nat, t: Id)
    requires Shows(s.kernel, v) && !Owed(s)
    requires v.runs in v.prio && v.runs in v.on && v.on[v.runs].Ready? && v.runs != IDLE
    requires t in v.events && v.events[t] == Event(o) && t in v.prio && v.prio[t] <= v.prio[v.runs]
    requires forall u :: u in v.events && v.events[u] == Event(o) ==> u == t
    ensures K.Inv(s.kernel) && Enabled(s, Give(v.prio[v.runs], o))
    ensures var n := Next(s, Give(v.prio[v.runs], o)); Shows(n.kernel, Roused(v, t)) && !Owed(n)
  {
    hide K.Inv, K.Next, Shows, Roused, Woken, HeadAbove, Disinherited, Items;
    ShownInv(s.kernel, v);
    Wakes(s.kernel, v, o, t);
    SameDisinherited(s.kernel, v.prio[v.runs]);
  }

  /** One that lowers the giver, and readies a task that is not above it even then. */
  lemma SecondGive(s: System, v: Picture, prio: nat, o: nat, t: Id)
    requires Shows(s.kernel, v) && !Owed(s)
    requires v.runs in v.prio && v.runs in v.on && v.on[v.runs].Ready? && v.runs != IDLE && prio < v.prio[v.runs]
    requires t in v.events && v.events[t] == Event(o) && t in v.prio && v.prio[t] <= prio && t != v.runs
    requires forall u :: u in v.events && v.events[u] == Event(o) ==> u == t
    ensures K.Inv(s.kernel) && Enabled(s, Give(prio, o))
    ensures var n := Next(s, Give(prio, o)); Shows(n.kernel, Roused(Ranked(v, v.runs, prio), t)) && !Owed(n)
  {
    hide K.Inv, K.Next, Shows, Roused, Woken, HeadAbove, Disinherited, Reset, Items;
    ShownInv(s.kernel, v);
    Resets(s.kernel, v, v.runs, prio);
    ShownInv(Reset(s.kernel, v.runs, prio), Ranked(v, v.runs, prio));
    Wakes(Reset(s.kernel, v.runs, prio), Ranked(v, v.runs, prio), o, t);
    LoweredBy(s.kernel, prio);
  }

  lemma SettledShows(ops: seq<Op>, v: Picture)
    requires SettledIn(ops, v)
    ensures Possible(First(IDLE), ops) && Shows(After(ops).kernel, v) && !Owed(After(ops))
  {
  }

  lemma TakeGive(ops: seq<Op>, v: Picture, prio: nat, o: nat, w: Picture)
    requires SettledIn(ops, v) && K.Inv(After(ops).kernel) && Enabled(After(ops), Give(prio, o))
    requires Shows(Next(After(ops), Give(prio, o)).kernel, w) && !Owed(Next(After(ops), Give(prio, o)))
    ensures SettledIn(ops + [Give(prio, o)], w)
  {
    hide K.Inv, Enabled, Next, Possible, After, Shows, Owed;
    Onward(ops, v, Give(prio, o));
  }

  lemma TakeFirstGive(ops: seq<Op>, v: Picture, o: nat, t: Id)
    requires SettledIn(ops, v)
    requires v.runs in v.prio && v.runs in v.on && v.on[v.runs].Ready? && v.runs != IDLE
    requires t in v.events && v.events[t] == Event(o) && t in v.prio && v.prio[t] <= v.prio[v.runs]
    requires forall u :: u in v.events && v.events[u] == Event(o) ==> u == t
    ensures SettledIn(ops + [Give(v.prio[v.runs], o)], Roused(v, t))
  {
    hide SettledIn, Possible, After, Shows, Roused, Owed, Enabled, Next;
    SettledShows(ops, v);
    FirstGive(After(ops), v, o, t);
    TakeGive(ops, v, v.prio[v.runs], o, Roused(v, t));
  }

  lemma TakeSecondGive(ops: seq<Op>, v: Picture, prio: nat, o: nat, t: Id)
    requires SettledIn(ops, v)
    requires v.runs in v.prio && v.runs in v.on && v.on[v.runs].Ready? && v.runs != IDLE && prio < v.prio[v.runs]
    requires t in v.events && v.events[t] == Event(o) && t in v.prio && v.prio[t] <= prio && t != v.runs
    requires forall u :: u in v.events && v.events[u] == Event(o) ==> u == t
    ensures SettledIn(ops + [Give(prio, o)], Roused(Ranked(v, v.runs, prio), t))
  {
    hide SettledIn, Possible, After, Shows, Roused, Owed, Enabled, Next;
    SettledShows(ops, v);
    SecondGive(After(ops), v, prio, o, t);
    TakeGive(ops, v, prio, o, Roused(Ranked(v, v.runs, prio), t));
  }

  lemma LoweredBy(k: K.State, prio: nat)
    requires K.Inv(k) && k.running != k.idle && prio < Prio(k)
    ensures Disinherited(k, prio) == Reset(k, k.running, prio)
  {
    hide K.Inv, K.Next;
  }

  lemma Beginning()
    ensures Reached([], Picture(IDLE, map[IDLE := Ready(0)], map[IDLE := 0], map[]))
  {
    hide K.Inv, Create;
    CreateKeepsNothing();
  }

  lemma CreateKeepsNothing()
    ensures var p := Create(NOTHING, IDLE, 0);
            p.state.on == map[IDLE := Ready(0)] && p.prio == map[IDLE := 0] && p.event.on == map[] && p.first
  {
  }

  /** The holder has been created, and has taken both mutexes. It creates the waiter and suspends
      itself; the waiter resumes it, and waits for the second mutex. */
  const PREPARED: seq<Op> := [
    Plain(K.New(HOLDER, 2)), Plain(K.Switch), Plain(K.New(WAITER, 1)), Plain(K.SuspendTask(HOLDER)), Plain(K.Switch),
    Plain(K.ResumeTask(HOLDER)), Plain(K.BlockOn(SECOND_MUTEX, 5)), Plain(K.Switch)]

  /** The urgent task is created, and waits for the first mutex, whose holder inherits. */
  const INHERITED: seq<Op> := [
    Plain(K.New(URGENT, 3)), Plain(K.Switch), Inherit(HOLDER), Plain(K.BlockOn(FIRST_MUTEX, 5)), Plain(K.Switch)]

  const GIVEN: seq<Op> := [Give(3, FIRST_MUTEX), Give(2, SECOND_MUTEX)]

  const APART: Picture := Picture(HOLDER, map[IDLE := Ready(0), HOLDER := Suspended, WAITER := Ready(1)],
                                  map[IDLE := 0, HOLDER := 2, WAITER := 1], map[])

  const BEFORE: Picture := Picture(HOLDER, map[IDLE := Ready(0), HOLDER := Ready(2), WAITER := DelayedOne],
                                   map[IDLE := 0, HOLDER := 2, WAITER := 1], map[WAITER := Event(SECOND_MUTEX)])

  const ARRIVED: Picture := Picture(URGENT,
                                    map[IDLE := Ready(0), HOLDER := Ready(2), WAITER := DelayedOne, URGENT := Ready(3)],
                                    map[IDLE := 0, HOLDER := 2, WAITER := 1, URGENT := 3],
                                    map[WAITER := Event(SECOND_MUTEX)])

  const BETWEEN: Picture := Picture(HOLDER,
                                    map[IDLE := Ready(0), HOLDER := Ready(3), WAITER := DelayedOne, URGENT := DelayedOne],
                                    map[IDLE := 0, HOLDER := 3, WAITER := 1, URGENT := 3],
                                    map[WAITER := Event(SECOND_MUTEX), URGENT := Event(FIRST_MUTEX)])

  const BEHIND: Picture := Picture(HOLDER, map[IDLE := Ready(0), HOLDER := Ready(2), WAITER := Ready(1), URGENT := Ready(3)],
                                   map[IDLE := 0, HOLDER := 2, WAITER := 1, URGENT := 3], map[])

  lemma Prepares()
    ensures Reached(PREPARED, BEFORE)
  {
    hide Reached, SettledIn, After, Owed;
    Beginning();
    var o0: seq<Op>, v0 := [], Picture(IDLE, map[IDLE := Ready(0)], map[IDLE := 0], map[]);
    TakeNew(o0, v0, HOLDER, 2);
    var o1, v1 := o0 + [Plain(K.New(HOLDER, 2))], Ranked(v0, HOLDER, 2);
    TakeSwitch(o1, v1, HOLDER);
    var o2, v2 := o1 + [Plain(K.Switch)], v1.(runs := HOLDER);
    TakeNew(o2, v2, WAITER, 1);
    var o3, v3 := o2 + [Plain(K.New(WAITER, 1))], Ranked(v2, WAITER, 1);
    TakeSuspend(o3, v3);
    assert o3 + [Plain(K.SuspendTask(HOLDER))] == PREPARED[..4];
    assert Moved(v3, HOLDER, Suspended) == APART;
    WaiterWaits();
  }

  lemma WaiterWaits()
    requires Reached(PREPARED[..4], APART)
    ensures Reached(PREPARED, BEFORE)
  {
    hide Reached, SettledIn, After, Owed;
    var o4, v4 := PREPARED[..4], APART;
    TakeSwitch(o4, v4, WAITER);
    var o5, v5 := o4 + [Plain(K.Switch)], v4.(runs := WAITER);
    TakeResume(o5, v5, HOLDER);
    var o6, v6 := o5 + [Plain(K.ResumeTask(HOLDER))], Moved(v5, HOLDER, Ready(2));
    TakeWait(o6, v6, SECOND_MUTEX);
    var o7, v7 := o6 + [Plain(K.BlockOn(SECOND_MUTEX, 5))], Joined(v6, SECOND_MUTEX);
    TakeSwitch(o7, v7, HOLDER);
    assert o7 + [Plain(K.Switch)] == PREPARED;
    assert v7.(runs := HOLDER) == BEFORE;
  }

  lemma UrgentRuns()
    ensures Reached(PREPARED + INHERITED[..2], ARRIVED)
  {
    hide Reached, SettledIn, After, Owed;
    Prepares();
    TakeNew(PREPARED, BEFORE, URGENT, 3);
    var o1, v1 := PREPARED + [Plain(K.New(URGENT, 3))], Ranked(BEFORE, URGENT, 3);
    TakeSwitch(o1, v1, URGENT);
    assert o1 + [Plain(K.Switch)] == PREPARED + INHERITED[..2];
    assert v1.(runs := URGENT) == ARRIVED;
  }

  lemma Inherits()
    ensures SettledIn(PREPARED + INHERITED, BETWEEN)
  {
    hide Reached, SettledIn, After, Owed;
    UrgentRuns();
    var o2 := PREPARED + INHERITED[..2];
    TakeInherit(o2, ARRIVED, HOLDER);
    var o3, v3 := o2 + [Inherit(HOLDER)], Ranked(ARRIVED, HOLDER, 3);
    TakeWait(o3, v3, FIRST_MUTEX);
    var o4 := o3 + [Plain(K.BlockOn(FIRST_MUTEX, 5))];
    assert Joined(v3, FIRST_MUTEX) == BETWEEN.(runs := URGENT);
    TakeSwitch(o4, BETWEEN.(runs := URGENT), HOLDER);
    assert o4 + [Plain(K.Switch)] == PREPARED + INHERITED;
  }

  lemma Gives()
    ensures SettledIn(PREPARED + INHERITED + GIVEN, BEHIND)
  {
    hide Reached, SettledIn, After, Owed;
    Inherits();
    var o0, v0 := PREPARED + INHERITED, BETWEEN;
    TakeFirstGive(o0, v0, FIRST_MUTEX, URGENT);
    var o1, v1 := o0 + [Give(3, FIRST_MUTEX)], Roused(v0, URGENT);
    TakeSecondGive(o1, v1, 2, SECOND_MUTEX, WAITER);
    assert Roused(Ranked(v1, HOLDER, 2), WAITER) == BEHIND;
    assert o1 + [Give(2, SECOND_MUTEX)] == o0 + GIVEN;
  }

  // ---- And no tick makes it good ----

  /** The holder runs, the urgent task is ready and no switch is owed. */
  ghost predicate Stuck(s: System) {
    && K.Inv(s.kernel) && !Owed(s) && s.kernel.locks == 0 && s.kernel.running == BEHIND.runs
    && s.kernel.place.state.on == BEHIND.on && s.kernel.place.prio == BEHIND.prio
  }

  lemma NoneDelayed(p: Place, l: StateList)
    requires Sound(p) && p.state.on == BEHIND.on
    ensures l == DelayedOne || l == DelayedTwo ==> Items(p.state, l) == []
    ensures l == Ready(2) ==> |Items(p.state, l)| <= 1
  {
    hide InOrder;
    var s := Items(p.state, l);
    if s != [] {
      assert Has(s, s[0].who);
      OnExactlyOneList(p.state, l, s[0].who);
      if |s| > 1 {
        assert Has(s, s[1].who);
        OnExactlyOneList(p.state, l, s[1].who);
      }
    }
  }

  lemma NothingExpires(p: Place, tick: nat, r: nat)
    requires Sound(p) && Items(p.state, Current(p)) == []
    ensures ExpireAll(p, tick) == p && !Raises(p, tick, r)
  {
    hide Sound, Awaken;
  }

  lemma TickIsNoHelp(s: System)
    requires Stuck(s)
    ensures Enabled(s, Plain(K.Tick)) && Stuck(Next(s, Plain(K.Tick)))
  {
    hide Sound, AlwaysReady, NonePending, ExpireAll, Raises, Items, DL.HeadTime;
    NextInv(s, Plain(K.Tick));
    var k := s.kernel;
    var tick := Plus(k.tick, 1);
    var p := if tick == 0 then k.place.(first := !k.place.first) else k.place;
    FlipKeeps(k.place);
    NoneDelayed(p, Current(p));
    NoneDelayed(p, Ready(2));
    NothingExpires(p, tick, 2);
  }

  function MoreTicks(n: nat): seq<Op> {
    if n == 0 then [] else MoreTicks(n - 1) + [Plain(K.Tick)]
  }

  ghost predicate StuckAfter(ops: seq<Op>) {
    Possible(First(IDLE), ops) && Stuck(After(ops))
  }

  lemma GivenIsStuck(ops: seq<Op>)
    requires SettledIn(ops, BEHIND)
    ensures StuckAfter(ops)
  {
    hide K.Inv, Possible, Run, First, Owed;
  }

  lemma OneTickMore(ops: seq<Op>)
    requires StuckAfter(ops)
    ensures StuckAfter(ops + [Plain(K.Tick)])
  {
    hide K.Inv, Possible, Run, First, Owed, Enabled, Next;
    TickIsNoHelp(After(ops));
    OneMore(First(IDLE), ops, After(ops), Plain(K.Tick));
  }

  lemma {:induction false} StaysStuck(ops: seq<Op>, n: nat)
    requires StuckAfter(ops)
    ensures StuckAfter(ops + MoreTicks(n))
  {
    hide StuckAfter;
    if n == 0 {
      assert ops + MoreTicks(0) == ops;
    } else {
      StaysStuck(ops, n - 1);
      OneTickMore(ops + MoreTicks(n - 1));
      assert ops + MoreTicks(n - 1) + [Plain(K.Tick)] == ops + MoreTicks(n);
    }
  }

  lemma StuckShows(ops: seq<Op>)
    requires StuckAfter(ops)
    ensures LosesTheUrgent(ops)
  {
    hide K.Inv, Possible, Run, First, Owed, Items, Has;
    Stands(Run(First(IDLE), ops).kernel, URGENT);
  }

  /** The run is possible, and at its end the urgent task is ready, the holder runs with a lower
      priority, the scheduler is not suspended, and no switch is owed. */
  ghost predicate LosesTheUrgent(ops: seq<Op>) {
    && Possible(First(IDLE), ops)
    && var s := Run(First(IDLE), ops); var p := s.kernel.place;
       && !Owed(s) && s.kernel.locks == 0 && s.kernel.running == HOLDER
       && URGENT in p.prio && HOLDER in p.prio && p.prio[HOLDER] < p.prio[URGENT]
       && Has(Items(p.state, Ready(p.prio[URGENT])), URGENT)
  }

  /** So it is at the end of this run, and however many ticks come after it. */
  lemma SwitchIsLost(n: nat)
    ensures LosesTheUrgent(PREPARED + INHERITED + GIVEN + MoreTicks(n))
  {
    hide *;
    Gives();
    GivenIsStuck(PREPARED + INHERITED + GIVEN);
    StaysStuck(PREPARED + INHERITED + GIVEN, n);
    StuckShows(PREPARED + INHERITED + GIVEN + MoreTicks(n));
  }

  lemma Stands(k: K.State, t: Id)
    requires K.Inv(k) && t in k.place.prio && t in k.place.state.on
    ensures Has(Items(k.place.state, k.place.state.on[t]), t)
  {
    hide InOrder, Items, Has;
    OnExactlyOneList(k.place.state, k.place.state.on[t], t);
  }
}
