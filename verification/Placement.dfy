/**
  Where the scheduled things are: one item of each on a ready, delayed or suspended list,
  and one item that may be on an event list or on the list of those readied but not moved
  yet. Tasks (tasks.c) and co-routines (croutine.c) are placed in the same way.
*/
module Placement {
  import opened Rings
  import opened TimedLists
  import opened Boards

  datatype StateList = Ready(p: nat) | DelayedOne | DelayedTwo | Suspended | Termination

  datatype EventList = Pending | Event(o: nat)

  datatype Place = Place(
    state: Board<StateList>,
    event: Board<EventList>,
    prio: map<Id, nat>,      // uxPriority of everything that has been created and not deleted
    top: nat,                // uxTopReadyPriority
    first: bool)             // the current delayed list is the first of the two

  /** Before anything has been created. */
  const NOTHING: Place := Place(Board(map[], map[]), Board(map[], map[]), map[], 0, true)

  function Current(p: Place): StateList {
    if p.first then DelayedOne else DelayedTwo
  }

  function Overflow(p: Place): StateList {
    if p.first then DelayedTwo else DelayedOne
  }

  /** prvAddTaskToReadyList */
  function AddToReady(p: Place, t: Id): Place
    requires t in p.prio
  {
    p.(state := PutEnd(p.state, Ready(p.prio[t]), Entry(t, 0)),
       top := if p.prio[t] > p.top then p.prio[t] else p.top)
  }

  /** Off the event list, if it is on one, off its state list, and on its ready list. */
  function Awaken(p: Place, t: Id): Place
    requires t in p.prio
  {
    AddToReady(p.(event := TakeOff(p.event, t), state := TakeOff(p.state, t)), t)
  }

  ghost predicate Waiting(l: StateList) {
    l == DelayedOne || l == DelayedTwo || l == Suspended
  }

  /** Everything alive is on exactly one state list; what is ready is on the list of its
      priority, and not above the top; what is on an event list is not ready. */
  ghost predicate Sound(p: Place) {
    && InOrder(p.state) && InOrder(p.event)
    && (forall t :: t in p.prio <==> t in p.state.on)
    && (forall t :: t in p.state.on && p.state.on[t].Ready? ==> p.state.on[t].p == p.prio[t] <= p.top)
    && (forall t :: t in p.event.on ==> t in p.state.on && Waiting(p.state.on[t]))
  }

  /** No ready list above the top has anything on it. */
  lemma NothingAboveTop(p: Place, q: nat)
    requires Sound(p) && p.top < q
    ensures Items(p.state, Ready(q)) == []
  {
    var s := Items(p.state, Ready(q));
    if s != [] {
      assert Has(s, s[0].who);
      OnExactlyOneList(p.state, Ready(q), s[0].who);
    }
  }

  lemma PutEndKeeps<L(!new)>(b: Board<L>, l: L, x: Entry)
    requires InOrder(b) && x.who !in b.on
    ensures InOrder(PutEnd(b, l, x)) && PutEnd(b, l, x).on == b.on[x.who := l]
  {
    InsertKeeps(b, l, if ListOf(b, l).at <= |Items(b, l)| then Back(ListOf(b, l)) else 0, x);
  }

  lemma PutSortedKeeps<L(!new)>(b: Board<L>, l: L, x: Entry)
    requires InOrder(b) && x.who !in b.on
    ensures InOrder(PutSorted(b, l, x)) && PutSorted(b, l, x).on == b.on[x.who := l]
  {
    InsertKeeps(b, l, InsertPos(Values(Items(b, l)), x.value), x);
  }

  // ---- Moving one thing ----

  /** Nothing but t has been moved on this board. */
  ghost predicate OthersStay<L>(b: Board<L>, c: Board<L>, t: Id) {
    && (forall u :: u != t ==> (u in c.on <==> u in b.on))
    && (forall u :: u != t && u in b.on ==> c.on[u] == b.on[u])
  }

  /** Nor anywhere. */
  ghost predicate Elsewhere(p: Place, q: Place, t: Id) {
    OthersStay(p.state, q.state, t) && OthersStay(p.event, q.event, t)
  }

  lemma TakenOff<L(!new)>(b: Board<L>, t: Id)
    requires InOrder(b)
    ensures InOrder(TakeOff(b, t)) && t !in TakeOff(b, t).on && OthersStay(b, TakeOff(b, t), t)
  {
    hide InOrder, TakeOff;
    TakeOffKeeps(b, t);
  }

  lemma MovedToEnd<L(!new)>(b: Board<L>, l: L, x: Entry)
    requires InOrder(b)
    ensures var c := PutEnd(TakeOff(b, x.who), l, x);
            InOrder(c) && x.who in c.on && c.on[x.who] == l && OthersStay(b, c, x.who)
  {
    hide InOrder, TakeOff, PutEnd;
    TakeOffKeeps(b, x.who);
    PutEndKeeps(TakeOff(b, x.who), l, x);
  }

  lemma MovedSorted<L(!new)>(b: Board<L>, l: L, x: Entry)
    requires InOrder(b)
    ensures var c := PutSorted(TakeOff(b, x.who), l, x);
            InOrder(c) && x.who in c.on && c.on[x.who] == l && OthersStay(b, c, x.who)
  {
    hide InOrder, TakeOff, PutSorted;
    TakeOffKeeps(b, x.who);
    PutSortedKeeps(TakeOff(b, x.who), l, x);
  }

  lemma Added<L(!new)>(b: Board<L>, l: L, x: Entry)
    requires InOrder(b) && x.who !in b.on
    ensures InOrder(PutEnd(b, l, x)) && InOrder(PutSorted(b, l, x))
    ensures x.who in PutEnd(b, l, x).on && PutEnd(b, l, x).on[x.who] == l && OthersStay(b, PutEnd(b, l, x), x.who)
    ensures x.who in PutSorted(b, l, x).on && PutSorted(b, l, x).on[x.who] == l && OthersStay(b, PutSorted(b, l, x), x.who)
  {
    hide InOrder, PutEnd, PutSorted;
    PutEndKeeps(b, l, x);
    PutSortedKeeps(b, l, x);
  }

  lemma Unmoved<L>(b: Board<L>, t: Id)
    ensures OthersStay(b, b, t)
  {
  }

  /** Where t is agrees with its priority, and it is not ready if it waits for an event. */
  ghost predicate WellPlaced(q: Place, t: Id) {
    && (t in q.prio <==> t in q.state.on)
    && (t in q.state.on && q.state.on[t].Ready? ==> q.state.on[t].p == q.prio[t] <= q.top)
    && (t in q.event.on ==> t in q.state.on && Waiting(q.state.on[t]))
  }

  /** When one thing has moved, only that one has to be looked at. */
  lemma SoundBut(p: Place, q: Place, t: Id)
    requires Sound(p) && Elsewhere(p, q, t) && InOrder(q.state) && InOrder(q.event) && WellPlaced(q, t) && p.top <= q.top
    requires forall u :: u != t ==> (u in q.prio <==> u in p.prio) && (u in p.prio ==> q.prio[u] == p.prio[u])
    ensures Sound(q)
  {
    hide InOrder;
  }

  lemma SoundIsValid(p: Place)
    requires Sound(p)
    ensures InOrder(p.state) && InOrder(p.event)
  {
    hide InOrder;
  }

  lemma SoundAt(p: Place, t: Id)
    requires Sound(p)
    ensures WellPlaced(p, t)
  {
    hide InOrder;
  }

  lemma AwakenKeeps(p: Place, t: Id)
    requires Sound(p) && t in p.prio
    ensures Sound(Awaken(p, t))
    ensures t in Awaken(p, t).state.on && Awaken(p, t).state.on[t] == Ready(p.prio[t]) && t !in Awaken(p, t).event.on
    ensures Elsewhere(p, Awaken(p, t), t)
  {
    hide Sound, InOrder, TakeOff, PutEnd, OthersStay;
    SoundIsValid(p);
    TakenOff(p.event, t);
    MovedToEnd(p.state, Ready(p.prio[t]), Entry(t, 0));
    SoundBut(p, Awaken(p, t), t);
  }

  // ---- Time ----

  /** Exchanging the delayed lists moves nothing. */
  lemma FlipKeeps(p: Place)
    requires Sound(p)
    ensures Sound(p.(first := !p.first))
  {
  }

  /** The loop of the tick: whatever is due on the current list is awakened, first things first. */
  function ExpireAll(p: Place, tick: nat): Place
    requires Sound(p)
    decreases |Items(p.state, Current(p))|
  {
    var s := Items(p.state, Current(p));
    if s == [] || tick < s[0].value then p
    else
      HeadIsAlive(p);
      HeadLeaves(p);
      ExpireAll(Awaken(p, s[0].who), tick)
  }

  lemma HeadIsAlive(p: Place)
    requires Sound(p) && Items(p.state, Current(p)) != []
    ensures Items(p.state, Current(p))[0].who in p.prio
    ensures p.state.on[Items(p.state, Current(p))[0].who] == Current(p)
  {
    var s := Items(p.state, Current(p));
    assert Has(s, s[0].who);
    OnExactlyOneList(p.state, Current(p), s[0].who);
  }

  /** Awakening leaves the items of the delayed lists as they are, without the one awakened. */
  lemma AwakenItems(p: Place, t: Id, l: StateList)
    requires Sound(p) && t in p.prio && !l.Ready?
    ensures Items(Awaken(p, t).state, l) == Without(Items(p.state, l), t)
  {
    hide Without, IndexFrom;
    TakeOffItems(p.state, t, l);
  }

  lemma WithoutHead(s: seq<Entry>)
    requires s != []
    ensures Without(s, s[0].who) == s[1..]
  {
  }

  lemma HeadLeaves(p: Place)
    requires Sound(p) && Items(p.state, Current(p)) != [] && Items(p.state, Current(p))[0].who in p.prio
    ensures var s, q := Items(p.state, Current(p)), Awaken(p, Items(p.state, Current(p))[0].who);
            && Sound(q) && q.first == p.first && q.prio == p.prio
            && Items(q.state, Current(q)) == s[1..]
            && Items(q.state, Overflow(q)) == Items(p.state, Overflow(p))
  {
    hide Sound;
    var s := Items(p.state, Current(p));
    AwakenKeeps(p, s[0].who);
    AwakenItems(p, s[0].who, Current(p));
    AwakenItems(p, s[0].who, Overflow(p));
    WithoutHead(s);
    OverflowHasNot(p);
  }

  lemma OverflowHasNot(p: Place)
    requires Sound(p) && Items(p.state, Current(p)) != []
    ensures var t := Items(p.state, Current(p))[0].who;
            Without(Items(p.state, Overflow(p)), t) == Items(p.state, Overflow(p))
  {
    var s := Items(p.state, Current(p));
    HeadIsAlive(p);
    OnExactlyOneList(p.state, Overflow(p), s[0].who);
    NotThere(Items(p.state, Overflow(p)), s[0].who);
  }

  lemma DueAtHead(s: seq<Entry>, tick: nat)
    ensures s == [] || tick < s[0].value ==> Due(s, tick) == 0
    ensures s != [] && s[0].value <= tick ==> Due(s, tick) == 1 + Due(s[1..], tick)
  {
    if s != [] && s[0].value <= tick {
      ScanTail(Values(s), tick, 1);
      assert Values(s[1..]) == Values(s)[1..];
    }
  }

  lemma {:induction false} ScanTail(v: seq<nat>, tick: nat, k: nat)
    requires 1 <= k <= |v|
    ensures ScanFrom(v, tick, k) == 1 + ScanFrom(v[1..], tick, k - 1)
    decreases |v| - k
  {
    if k < |v| && v[k] <= tick {
      ScanTail(v, tick, k + 1);
    }
  }

  /** The loop takes off the current list exactly what is due, touches nothing else that is
      delayed, and leaves everything it has taken off ready and on no event list. */
  lemma {:induction false} ExpireAllTakesTheDue(p: Place, tick: nat)
    requires Sound(p)
    ensures var q, s := ExpireAll(p, tick), Items(p.state, Current(p));
            && Sound(q) && q.first == p.first && q.prio == p.prio
            && Items(q.state, Current(q)) == s[Due(s, tick)..]
            && Items(q.state, Overflow(q)) == Items(p.state, Overflow(p))
    decreases |Items(p.state, Current(p))|
  {
    hide Sound, Awaken, Due;
    var s := Items(p.state, Current(p));
    DueAtHead(s, tick);
    if s != [] && s[0].value <= tick {
      HeadIsAlive(p);
      HeadLeaves(p);
      ExpireAllTakesTheDue(Awaken(p, s[0].who), tick);
      var k := Due(s[1..], tick);
      assert s[1..][k..] == s[1 + k..];
    } else {
      assert s[0..] == s;
    }
  }

  /** One turn of the loop. */
  lemma ExpireTurn(p: Place, tick: nat)
    requires Sound(p) && Due(Items(p.state, Current(p)), tick) > 0
    ensures var s := Items(p.state, Current(p));
            && s != [] && s[0].who in p.prio && Due(s, tick) == 1 + Due(s[1..], tick)
            && Sound(Awaken(p, s[0].who))
            && ExpireAll(p, tick) == ExpireAll(Awaken(p, s[0].who), tick)
  {
    hide Sound, Awaken;
    DueAtHead(Items(p.state, Current(p)), tick);
    HeadIsAlive(p);
    HeadLeaves(p);
  }

  /** What has expired is ready, once, and on no event list: not even when an interrupt had
      already put its event item on the pending-ready list. */
  lemma {:induction false} ExpiredIsReadyOnce(p: Place, tick: nat, i: nat)
    requires Sound(p) && i < Due(Items(p.state, Current(p)), tick)
    ensures var q, t := ExpireAll(p, tick), Items(p.state, Current(p))[i].who;
            && t in p.prio && t in q.state.on && q.state.on[t] == Ready(p.prio[t]) && t !in q.event.on
    decreases i
  {
    hide Sound, Due, ExpireAll, Awaken, Items;
    var s := Items(p.state, Current(p));
    ExpireTurn(p, tick);
    HeadLeaves(p);
    AwakenKeeps(p, s[0].who);
    var q := Awaken(p, s[0].who);
    if i > 0 {
      ExpiredIsReadyOnce(q, tick, i - 1);
      assert s[i] == s[1..][i - 1];
    } else {
      ReadyStays(q, tick, s[0].who);
    }
  }

  lemma {:induction false} ReadyStays(p: Place, tick: nat, t: Id)
    requires Sound(p) && t in p.state.on && p.state.on[t].Ready? && t !in p.event.on
    ensures var q := ExpireAll(p, tick);
            t in q.state.on && q.state.on[t] == p.state.on[t] && t !in q.event.on
    decreases |Items(p.state, Current(p))|
  {
    hide Sound, Awaken;
    var s := Items(p.state, Current(p));
    if s != [] && s[0].value <= tick {
      HeadIsAlive(p);
      HeadLeaves(p);
      AwakenKeeps(p, s[0].who);
      ReadyStays(Awaken(p, s[0].who), tick, t);
    }
  }

  /** Everything on the pending-ready list is moved to its ready list, first things first. */
  function MovePending(p: Place): Place
    requires Sound(p)
    decreases |Items(p.event, Pending)|
  {
    var s := Items(p.event, Pending);
    if s == [] then p
    else
      PendingIsAlive(p);
      PendingShrinks(p);
      MovePending(Awaken(p, s[0].who))
  }

  lemma PendingIsAlive(p: Place)
    requires Sound(p) && Items(p.event, Pending) != []
    ensures var t := Items(p.event, Pending)[0].who;
            t in p.prio && t in p.event.on && p.event.on[t] == Pending
  {
    var s := Items(p.event, Pending);
    assert Has(s, s[0].who);
    OnExactlyOneList(p.event, Pending, s[0].who);
  }

  lemma PendingShrinks(p: Place)
    requires Sound(p) && Items(p.event, Pending) != [] && Items(p.event, Pending)[0].who in p.prio
    ensures var s, q := Items(p.event, Pending), Awaken(p, Items(p.event, Pending)[0].who);
            Sound(q) && q.first == p.first && q.prio == p.prio && Items(q.event, Pending) == s[1..]
  {
    hide Sound, PutEnd;
    var s := Items(p.event, Pending);
    AwakenKeeps(p, s[0].who);
    assert InOrder(p.event) by { SoundIsValid(p); }
    TakeOffItems(p.event, s[0].who, Pending);
    WithoutHead(s);
  }

  lemma {:induction false} MovePendingEmpties(p: Place)
    requires Sound(p)
    ensures var q := MovePending(p);
            Sound(q) && q.first == p.first && q.prio == p.prio && Items(q.event, Pending) == []
    decreases |Items(p.event, Pending)|
  {
    hide Sound, Awaken;
    if Items(p.event, Pending) != [] {
      PendingIsAlive(p);
      PendingShrinks(p);
      MovePendingEmpties(Awaken(p, Items(p.event, Pending)[0].who));
    }
  }

  lemma {:induction false} ReadyStaysMoving(p: Place, t: Id)
    requires Sound(p) && t in p.state.on && p.state.on[t].Ready?
    ensures var q := MovePending(p); t in q.state.on && q.state.on[t] == p.state.on[t] && t !in q.event.on
    decreases |Items(p.event, Pending)|
  {
    hide Sound, Awaken;
    assert t !in p.event.on by { SoundAt(p, t); }
    if Items(p.event, Pending) != [] {
      PendingIsAlive(p);
      PendingShrinks(p);
      AwakenKeeps(p, Items(p.event, Pending)[0].who);
      ReadyStaysMoving(Awaken(p, Items(p.event, Pending)[0].who), t);
    }
  }

  /** Whatever is pending is ready afterwards, with its priority, and waits for no event. */
  lemma {:induction false} PendingIsReadied(p: Place, t: Id)
    requires Sound(p) && t in p.event.on && p.event.on[t] == Pending
    ensures var q := MovePending(p); t in p.prio && t in q.state.on && q.state.on[t] == Ready(p.prio[t]) && t !in q.event.on
    decreases |Items(p.event, Pending)|
  {
    hide Sound, Awaken, InOrder;
    SoundIsValid(p);
    OnExactlyOneList(p.event, Pending, t);
    PendingIsAlive(p);
    PendingShrinks(p);
    var h := Items(p.event, Pending)[0].who;
    AwakenKeeps(p, h);
    if h == t {
      ReadyStaysMoving(Awaken(p, h), t);
    } else {
      PendingIsReadied(Awaken(p, h), t);
    }
  }

  // ---- Selection ----

  /** The search downwards for a ready list with something on it. */
  function LowerTop(p: Place): Place
    decreases p.top
  {
    if Items(p.state, Ready(p.top)) == [] && p.top > 0 then LowerTop(p.(top := p.top - 1)) else p
  }

  /** The search stops at the highest priority anything ready has, or at 0 if nothing is ready. */
  lemma {:induction false} LowerTopFinds(p: Place)
    requires Sound(p)
    ensures var q := LowerTop(p);
            && Sound(q) && q == p.(top := q.top)
            && (Items(q.state, Ready(q.top)) == [] ==>
                  q.top == 0 && forall t :: t in q.state.on ==> !q.state.on[t].Ready?)
    decreases p.top
  {
    hide InOrder;
    if Items(p.state, Ready(p.top)) == [] {
      forall t | t in p.state.on ensures p.state.on[t] != Ready(p.top) {
        OnExactlyOneList(p.state, Ready(p.top), t);
      }
      if p.top > 0 {
        LowerTopFinds(p.(top := p.top - 1));
      }
    }
  }

  /** listGET_OWNER_OF_NEXT_ENTRY on the top ready list. */
  function PickNext(p: Place): (Place, Id)
    requires Items(p.state, Ready(p.top)) != [] && ListOf(p.state, Ready(p.top)).at <= |Items(p.state, Ready(p.top))|
  {
    var r := Advance(ListOf(p.state, Ready(p.top)));
    (p.(state := p.state.(lists := p.state.lists[Ready(p.top) := r])), Selected(r).who)
  }

  /** What is picked is ready, and nothing ready has a higher priority. */
  lemma PickIsHighest(p: Place)
    requires Sound(p) && Items(p.state, Ready(p.top)) != []
    ensures ListOf(p.state, Ready(p.top)).at <= |Items(p.state, Ready(p.top))|
    ensures var (q, t) := PickNext(p);
            && Sound(q) && q.state.on == p.state.on
            && (forall l :: Items(q.state, l) == Items(p.state, l))
            && t in q.prio && t in q.state.on && q.state.on[t] == Ready(q.prio[t])
            && (forall u :: u in q.state.on && q.state.on[u].Ready? ==> q.prio[u] <= q.prio[t])
  {
    var s := Items(p.state, Ready(p.top));
    var (q, t) := PickNext(p);
    assert Has(s, t);
    OnExactlyOneList(p.state, Ready(p.top), t);
    PickKeepsOrder(p);
  }

  lemma PickKeepsOrder(p: Place)
    requires InOrder(p.state) && Items(p.state, Ready(p.top)) != []
    requires ListOf(p.state, Ready(p.top)).at <= |Items(p.state, Ready(p.top))|
    ensures InOrder(PickNext(p).0.state)
  {
    var b, c := p.state, PickNext(p).0.state;
    assert forall l :: Items(c, l) == Items(b, l);
    hide Has, Separate;
  }

  // ---- Blocking ----

  /** Off its state list, and on one of the delayed lists in the order of its wake time. */
  function Delay(p: Place, t: Id, value: nat, later: bool): Place {
    p.(state := PutSorted(TakeOff(p.state, t), if later then Overflow(p) else Current(p), Entry(t, value)))
  }

  /** On an event list, in the order of the key. */
  function JoinEvent(p: Place, t: Id, o: nat, key: nat): Place {
    p.(event := PutSorted(p.event, Event(o), Entry(t, key)))
  }

  lemma DelayKeeps(p: Place, t: Id, value: nat, later: bool)
    requires Sound(p) && t in p.prio
    ensures Sound(Delay(p, t, value, later)) && Elsewhere(p, Delay(p, t, value, later), t)
    ensures t in Delay(p, t, value, later).state.on
    ensures Delay(p, t, value, later).state.on[t] == if later then Overflow(p) else Current(p)
  {
    hide Sound, InOrder, TakeOff, PutSorted, OthersStay;
    SoundIsValid(p);
    SoundAt(p, t);
    MovedSorted(p.state, if later then Overflow(p) else Current(p), Entry(t, value));
    Unmoved(p.event, t);
    SoundBut(p, Delay(p, t, value, later), t);
  }

  /** A task that is ready joins the delayed lists, which otherwise stay as they are. */
  lemma DelayItems(p: Place, t: Id, value: nat, later: bool)
    requires Sound(p) && t in p.prio && p.state.on[t].Ready?
    ensures var q := Delay(p, t, value, later);
            && Items(q.state, Current(q)) ==
               (if later then Items(p.state, Current(p)) else InsertSorted(Items(p.state, Current(p)), Entry(t, value)))
            && Items(q.state, Overflow(q)) ==
               (if later then InsertSorted(Items(p.state, Overflow(p)), Entry(t, value)) else Items(p.state, Overflow(p)))
  {
    hide Without, IndexFrom, InOrder, TakeOff;
    TakeOffItems(p.state, t, Current(p));
    TakeOffItems(p.state, t, Overflow(p));
    OnExactlyOneList(p.state, Current(p), t);
    OnExactlyOneList(p.state, Overflow(p), t);
    NotThere(Items(p.state, Current(p)), t);
    NotThere(Items(p.state, Overflow(p)), t);
  }

  lemma JoinEventKeeps(p: Place, t: Id, o: nat, key: nat)
    requires Sound(p) && t in p.state.on && Waiting(p.state.on[t]) && t !in p.event.on
    ensures Sound(JoinEvent(p, t, o, key)) && t in JoinEvent(p, t, o, key).event.on
    ensures JoinEvent(p, t, o, key).event.on[t] == Event(o)
    ensures Elsewhere(p, JoinEvent(p, t, o, key), t)
  {
    hide Sound, InOrder, PutSorted, OthersStay;
    SoundIsValid(p);
    SoundAt(p, t);
    Added(p.event, Event(o), Entry(t, key));
    Unmoved(p.state, t);
    SoundBut(p, JoinEvent(p, t, o, key), t);
  }

  /** An event item goes on the pending-ready list, from whatever list it is on. */
  function ToPending(p: Place, t: Id): Place {
    p.(event := PutEnd(TakeOff(p.event, t), Pending, Entry(t, 0)))
  }

  lemma ToPendingKeeps(p: Place, t: Id)
    requires Sound(p) && t in p.state.on && Waiting(p.state.on[t])
    ensures Sound(ToPending(p, t)) && t in ToPending(p, t).event.on && ToPending(p, t).event.on[t] == Pending
    ensures Elsewhere(p, ToPending(p, t), t) && ToPending(p, t).state == p.state
  {
    hide Sound, InOrder, TakeOff, PutEnd, OthersStay;
    SoundIsValid(p);
    SoundAt(p, t);
    MovedToEnd(p.event, Pending, Entry(t, 0));
    Unmoved(p.state, t);
    SoundBut(p, ToPending(p, t), t);
  }

  lemma EventHeadWaits(p: Place, o: nat)
    requires Sound(p) && Items(p.event, Event(o)) != []
    ensures var t := Items(p.event, Event(o))[0].who;
            && t in p.event.on && p.event.on[t] == Event(o) && t in p.prio
            && t in p.state.on && Waiting(p.state.on[t])
  {
    var s := Items(p.event, Event(o));
    assert Has(s, s[0].who);
    OnExactlyOneList(p.event, Event(o), s[0].who);
  }

  // ---- Something that is always ready ----

  /** t is ready, with priority 0, and waits for nothing. */
  ghost predicate AlwaysReady(p: Place, t: Id) {
    t in p.prio && p.prio[t] == 0 && t in p.state.on && p.state.on[t] == Ready(0) && t !in p.event.on
  }

  lemma {:induction false} MovePendingSpares(p: Place, t: Id)
    requires Sound(p) && AlwaysReady(p, t)
    ensures AlwaysReady(MovePending(p), t)
    decreases |Items(p.event, Pending)|
  {
    hide Sound, Awaken;
    if Items(p.event, Pending) != [] {
      PendingIsAlive(p);
      PendingShrinks(p);
      var h := Items(p.event, Pending)[0].who;
      AwakenKeeps(p, h);
      MovePendingSpares(Awaken(p, h), t);
    }
  }

  lemma ExpireAllSpares(p: Place, tick: nat, t: Id)
    requires Sound(p) && AlwaysReady(p, t)
    ensures AlwaysReady(ExpireAll(p, tick), t)
  {
    hide Sound;
    ReadyStays(p, tick, t);
    ExpireAllTakesTheDue(p, tick);
  }

  // ---- Suspending, changing priority, deleting ----

  /** vTaskSuspend */
  function Suspend(p: Place, t: Id): Place {
    p.(state := PutEnd(TakeOff(p.state, t), Suspended, Entry(t, 0)), event := TakeOff(p.event, t))
  }

  lemma SuspendKeeps(p: Place, t: Id)
    requires Sound(p) && t in p.prio
    ensures Sound(Suspend(p, t)) && Elsewhere(p, Suspend(p, t), t)
    ensures t in Suspend(p, t).state.on && Suspend(p, t).state.on[t] == Suspended && t !in Suspend(p, t).event.on
  {
    hide Sound, InOrder, TakeOff, PutEnd, OthersStay;
    SoundIsValid(p);
    TakenOff(p.event, t);
    MovedToEnd(p.state, Suspended, Entry(t, 0));
    SoundBut(p, Suspend(p, t), t);
  }

  /** prvAddCurrentTaskToDelayedList without a timeout. */
  function BlockForever(p: Place, t: Id): Place {
    p.(state := PutEnd(TakeOff(p.state, t), Suspended, Entry(t, 0)))
  }

  lemma BlockForeverKeeps(p: Place, t: Id)
    requires Sound(p) && t in p.prio
    ensures Sound(BlockForever(p, t)) && Elsewhere(p, BlockForever(p, t), t)
    ensures t in BlockForever(p, t).state.on && BlockForever(p, t).state.on[t] == Suspended
  {
    hide Sound, InOrder, TakeOff, PutEnd, OthersStay;
    SoundIsValid(p);
    SoundAt(p, t);
    MovedToEnd(p.state, Suspended, Entry(t, 0));
    Unmoved(p.event, t);
    SoundBut(p, BlockForever(p, t), t);
  }

  /** A change of priority moves a ready task to another ready list, and nothing else. */
  function ChangePriority(p: Place, t: Id, prio: nat): Place
    requires t in p.prio
  {
    var q := p.(prio := p.prio[t := prio]);
    if t in p.state.on && p.state.on[t] == Ready(p.prio[t]) then AddToReady(q.(state := TakeOff(q.state, t)), t) else q
  }

  lemma ChangePriorityKeeps(p: Place, t: Id, prio: nat)
    requires Sound(p) && t in p.prio
    ensures Sound(ChangePriority(p, t, prio)) && Elsewhere(p, ChangePriority(p, t, prio), t)
    ensures ChangePriority(p, t, prio).prio == p.prio[t := prio]
    ensures t in ChangePriority(p, t, prio).state.on
    ensures p.state.on[t].Ready? ==> ChangePriority(p, t, prio).state.on[t] == Ready(prio)
    ensures !p.state.on[t].Ready? ==> ChangePriority(p, t, prio).state.on[t] == p.state.on[t]
  {
    hide Sound, InOrder, TakeOff, PutEnd, OthersStay;
    SoundIsValid(p);
    SoundAt(p, t);
    MovedToEnd(p.state, Ready(prio), Entry(t, 0));
    Unmoved(p.state, t);
    Unmoved(p.event, t);
    SoundBut(p, ChangePriority(p, t, prio), t);
  }

  /** A new task is ready. */
  function Create(p: Place, t: Id, prio: nat): Place {
    AddToReady(p.(prio := p.prio[t := prio]), t)
  }

  lemma CreateKeeps(p: Place, t: Id, prio: nat)
    requires Sound(p) && t !in p.prio
    ensures Sound(Create(p, t, prio)) && Elsewhere(p, Create(p, t, prio), t)
    ensures t in Create(p, t, prio).state.on && Create(p, t, prio).state.on[t] == Ready(prio)
  {
    hide Sound, InOrder, PutEnd, OthersStay;
    SoundIsValid(p);
    SoundAt(p, t);
    Added(p.state, Ready(prio), Entry(t, 0));
    Unmoved(p.event, t);
    SoundBut(p, Create(p, t, prio), t);
  }

  /** vTaskDelete: gone, or to be cleaned up by the idle task if it deletes itself. */
  function Delete(p: Place, t: Id, itself: bool): Place {
    var state := TakeOff(p.state, t);
    if itself then p.(state := PutEnd(state, Termination, Entry(t, 0)), event := TakeOff(p.event, t))
    else p.(state := state, event := TakeOff(p.event, t), prio := map u | u in p.prio && u != t :: p.prio[u])
  }

  lemma DeleteKeeps(p: Place, t: Id, itself: bool)
    requires Sound(p) && t in p.prio
    ensures Sound(Delete(p, t, itself)) && Elsewhere(p, Delete(p, t, itself), t)
    ensures t !in Delete(p, t, itself).event.on
    ensures t in Delete(p, t, itself).state.on ==> Delete(p, t, itself).state.on[t] == Termination
  {
    hide Sound, InOrder, TakeOff, PutEnd, OthersStay;
    SoundIsValid(p);
    TakenOff(p.state, t);
    TakenOff(p.event, t);
    MovedToEnd(p.state, Termination, Entry(t, 0));
    SoundBut(p, Delete(p, t, itself), t);
  }

  /** listINSERT_END on the list of an event group. */
  function JoinUnordered(p: Place, t: Id, o: nat, value: nat): Place {
    p.(event := PutEnd(p.event, Event(o), Entry(t, value)))
  }

  lemma JoinUnorderedKeeps(p: Place, t: Id, o: nat, value: nat)
    requires Sound(p) && t in p.state.on && Waiting(p.state.on[t]) && t !in p.event.on
    ensures t in JoinUnordered(p, t, o, value).event.on && JoinUnordered(p, t, o, value).event.on[t] == Event(o)
    ensures Sound(JoinUnordered(p, t, o, value)) && Elsewhere(p, JoinUnordered(p, t, o, value), t)
  {
    hide Sound, InOrder, PutEnd, OthersStay;
    SoundIsValid(p);
    SoundAt(p, t);
    Added(p.event, Event(o), Entry(t, value));
    Unmoved(p.state, t);
    SoundBut(p, JoinUnordered(p, t, o, value), t);
  }

  // ---- Pending ----

  ghost predicate NonePending(p: Place) {
    forall t :: t in p.event.on ==> p.event.on[t] != Pending
  }

  lemma NonePendingMeansEmpty(p: Place)
    requires Sound(p)
    ensures NonePending(p) <==> Items(p.event, Pending) == []
  {
    hide InOrder;
    var s := Items(p.event, Pending);
    if s != [] {
      assert Has(s, s[0].who);
      OnExactlyOneList(p.event, Pending, s[0].who);
    } else {
      forall t | t in p.event.on ensures p.event.on[t] != Pending {
        OnExactlyOneList(p.event, Pending, t);
      }
    }
  }

  lemma {:induction false} ExpireAllLeavesNonePending(p: Place, tick: nat)
    requires Sound(p) && NonePending(p)
    ensures NonePending(ExpireAll(p, tick))
    decreases |Items(p.state, Current(p))|
  {
    hide Sound, Awaken;
    var s := Items(p.state, Current(p));
    if s != [] && s[0].value <= tick {
      HeadIsAlive(p);
      HeadLeaves(p);
      AwakenKeeps(p, s[0].who);
      ExpireAllLeavesNonePending(Awaken(p, s[0].who), tick);
    }
  }
}
