/**
  Event lists in the order of priorities, for tasks and for co-routines: an event list carries
  item values that are the smaller the higher the priority, below the limit that there is.
*/
module EventLists {
  import opened Rings
  import opened TimedLists
  import opened Boards
  import opened Placement
  import opened Priorities

  function OnEvent(p: Place, o: nat): seq<Entry> {
    Items(p.event, Event(o))
  }

  /** The items of an event list carry the keys of their tasks' priorities, and ascend. */
  ghost predicate Ordered(s: seq<Entry>, prio: map<Id, nat>, max: nat) {
    && Ascending(s)
    && forall i :: 0 <= i < |s| ==>
         s[i].who in prio && prio[s[i].who] < max && s[i].value == KeyUnder(max, prio[s[i].who])
  }

  ghost predicate ByPriority(p: Place, max: nat) {
    forall o: nat :: Ordered(OnEvent(p, o), p.prio, max)
  }

  /** The head of an event list is a highest-priority waiter. */
  lemma HeadIsHighest(p: Place, o: nat, u: Id, max: nat)
    requires Sound(p) && ByPriority(p, max) && OnEvent(p, o) != []
    requires u in p.event.on && p.event.on[u] == Event(o)
    ensures u in p.prio && OnEvent(p, o)[0].who in p.prio && p.prio[u] <= p.prio[OnEvent(p, o)[0].who]
  {
    var s := OnEvent(p, o);
    assert Has(s, u) by { OnExactlyOneList(p.event, Event(o), u); }
    var i :| 0 <= i < |s| && s[i].who == u;
    assert Ordered(s, p.prio, max);
  }

  lemma WithoutOrdered(s: seq<Entry>, prio: map<Id, nat>, t: Id, max: nat)
    requires Ordered(s, prio, max) && Separate(s)
    ensures Ordered(Without(s, t), prio, max)
  {
    WithoutFacts(s, t);
  }

  lemma InsertOrdered(s: seq<Entry>, prio: map<Id, nat>, t: Id, max: nat)
    requires Ordered(s, prio, max) && t in prio && prio[t] < max
    ensures Ordered(InsertSorted(s, Entry(t, KeyUnder(max, prio[t]))), prio, max)
  {
    InsertKeepsOrder(s, Entry(t, KeyUnder(max, prio[t])));
  }

  /** Taking an item off its event list keeps every event list in order. */
  lemma TakeOffOrdered(p: Place, q: Place, t: Id, max: nat)
    requires Sound(p) && ByPriority(p, max) && q.prio == p.prio
    requires forall o: nat :: OnEvent(q, o) == Items(TakeOff(p.event, t), Event(o))
    ensures ByPriority(q, max)
  {
    hide Ordered, Without, TakeOff;
    forall o: nat ensures Ordered(OnEvent(q, o), q.prio, max) {
      TakeOffItems(p.event, t, Event(o));
      OnExactlyOneList(p.event, Event(o), t);
      assert Ordered(OnEvent(p, o), p.prio, max);
      WithoutOrdered(OnEvent(p, o), p.prio, t, max);
    }
  }

  lemma AwakenOrdered(p: Place, t: Id, max: nat)
    requires Sound(p) && ByPriority(p, max) && t in p.prio
    ensures ByPriority(Awaken(p, t), max)
  {
    hide Sound, ByPriority, TakeOff, PutEnd;
    TakeOffOrdered(p, Awaken(p, t), t, max);
  }

  lemma ToPendingOrdered(p: Place, t: Id, max: nat)
    requires Sound(p) && ByPriority(p, max)
    ensures ByPriority(ToPending(p, t), max)
  {
    hide Sound, ByPriority, TakeOff;
    TakeOffOrdered(p, ToPending(p, t), t, max);
  }

  lemma SuspendOrdered(p: Place, t: Id, max: nat)
    requires Sound(p) && ByPriority(p, max)
    ensures ByPriority(Suspend(p, t), max)
  {
    hide Sound, ByPriority, TakeOff, PutEnd;
    TakeOffOrdered(p, Suspend(p, t), t, max);
  }

  lemma JoinOrdered(p: Place, t: Id, o: nat, max: nat)
    requires ByPriority(p, max) && t in p.prio && p.prio[t] < max
    ensures ByPriority(JoinEvent(p, t, o, KeyUnder(max, p.prio[t])), max)
  {
    hide Ordered, KeyUnder, InsertPos, Values;
    var q := JoinEvent(p, t, o, KeyUnder(max, p.prio[t]));
    forall n: nat ensures Ordered(OnEvent(q, n), q.prio, max) {
      assert Ordered(OnEvent(p, n), p.prio, max);
      if n == o {
        InsertOrdered(OnEvent(p, o), p.prio, t, max);
        assert OnEvent(q, o) == InsertSorted(OnEvent(p, o), Entry(t, KeyUnder(max, p.prio[t])));
      }
    }
  }

  /** A priority may change while the task waits for nothing. */
  lemma PriorityOrdered(p: Place, q: Place, t: Id, max: nat)
    requires Sound(p) && ByPriority(p, max) && t !in p.event.on && q.event == p.event
    requires forall u :: u in p.prio && u != t ==> u in q.prio && q.prio[u] == p.prio[u]
    ensures ByPriority(q, max)
  {
    forall o: nat ensures Ordered(OnEvent(q, o), q.prio, max) {
      assert Ordered(OnEvent(p, o), p.prio, max);
      OnExactlyOneList(p.event, Event(o), t);
    }
  }

  lemma {:induction false} ExpireAllOrdered(p: Place, tick: nat, max: nat)
    requires Sound(p) && ByPriority(p, max)
    ensures ByPriority(ExpireAll(p, tick), max)
    decreases |Items(p.state, Current(p))|
  {
    hide Sound, ByPriority, Awaken;
    var s := Items(p.state, Current(p));
    if s != [] && s[0].value <= tick {
      HeadIsAlive(p);
      HeadLeaves(p);
      AwakenOrdered(p, s[0].who, max);
      ExpireAllOrdered(Awaken(p, s[0].who), tick, max);
    }
  }

  lemma {:induction false} MovePendingOrdered(p: Place, max: nat)
    requires Sound(p) && ByPriority(p, max)
    ensures ByPriority(MovePending(p), max)
    decreases |Items(p.event, Pending)|
  {
    hide Sound, ByPriority, Awaken;
    if Items(p.event, Pending) != [] {
      PendingIsAlive(p);
      PendingShrinks(p);
      AwakenOrdered(p, Items(p.event, Pending)[0].who, max);
      MovePendingOrdered(Awaken(p, Items(p.event, Pending)[0].who), max);
    }
  }

  lemma SameEvents(p: Place, q: Place, max: nat)
    requires ByPriority(p, max) && q.event == p.event && q.prio == p.prio
    ensures ByPriority(q, max)
  {
    forall o: nat ensures Ordered(OnEvent(q, o), q.prio, max) {
      assert Ordered(OnEvent(p, o), p.prio, max);
    }
  }
}
