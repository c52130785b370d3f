/**
  Round robin among the ready tasks of one priority, and among co-routines: which of several a
  context switch chooses, and how soon each of them has its turn.
*/
module Fairness {
  import opened Rings
  import opened TimedLists
  import opened Boards
  import opened Placement
  import K = Kernel
  import C = CoRoutines

  // ---- Lists of a board, one move at a time ----

  lemma PutEndIsInsertEnd<L(!new)>(b: Board<L>, l: L, x: Entry, m: L)
    requires ListOf(b, l).at <= |Items(b, l)|
    ensures ListOf(PutEnd(b, l, x), m) == if m == l then InsertEnd(ListOf(b, l), x) else ListOf(b, m)
  {
  }

  lemma PutSortedElsewhere<L(!new)>(b: Board<L>, l: L, x: Entry, m: L)
    requires m != l
    ensures ListOf(PutSorted(b, l, x), m) == ListOf(b, m)
  {
    hide InsertPos;
  }

  lemma TakeOffIsRemove<L(!new)>(b: Board<L>, t: Id, m: L)
    requires InOrder(b)
    ensures ListOf(TakeOff(b, t), m) ==
            if t in b.on && b.on[t] == m then Rings.Remove(ListOf(b, m), IndexFrom(Items(b, m), t, 0)) else ListOf(b, m)
    ensures t in b.on && b.on[t] == m ==> IndexFrom(Items(b, m), t, 0) < |Items(b, m)|
  {
    hide Has, Separate, IndexFrom;
    if t in b.on {
      IndexFound(Items(b, b.on[t]), t);
    }
  }

  // ---- The choice ----

  /** The item behind the index, or the first one, is chosen, and the index comes to rest on it;
      nothing else on any list changes. */
  lemma PickIsNext(p: Place)
    requires var r := ListOf(p.state, Ready(p.top)); r.items != [] && r.at <= |r.items|
    ensures var r := ListOf(p.state, Ready(p.top)); var i := if r.at < |r.items| then r.at else 0; var (q, t) := PickNext(p);
            && t == r.items[i].who && ListOf(q.state, Ready(p.top)) == Ring(r.items, i + 1)
            && (forall l :: l != Ready(p.top) ==> ListOf(q.state, l) == ListOf(p.state, l))
            && q == p.(state := q.state) && q.state.on == p.state.on
  {
  }

  /** The list the next choice is made from. */
  function TopList(p: Place): Ring<Entry> {
    ListOf(p.state, Ready(LowerTop(p).top))
  }

  lemma LowerTopSame(p: Place)
    requires Sound(p)
    ensures var q := LowerTop(p);
            && Sound(q) && q == p.(top := q.top) && LowerTop(q) == q && TopList(q) == TopList(p)
            && TopList(p).at <= |TopList(p).items|
  {
    hide Sound;
    LowerTopFinds(p);
    LowerTopAgain(p);
    AtInRange(p);
  }

  lemma {:induction false} LowerTopAgain(p: Place)
    ensures LowerTop(LowerTop(p)) == LowerTop(p)
    decreases p.top
  {
    if Items(p.state, Ready(p.top)) == [] && p.top > 0 {
      LowerTopAgain(p.(top := p.top - 1));
    }
  }

  lemma AtInRange(p: Place)
    requires Sound(p)
    ensures forall l :: ListOf(p.state, l).at <= |ListOf(p.state, l).items| && Separate(Items(p.state, l))
  {
  }

  /** Who is chosen by n choices in a row, with nothing between them. */
  ghost function Picks(p: Place, n: nat): seq<Id>
    requires Sound(p) && TopList(p).items != []
    decreases n
  {
    if n == 0 then []
    else
      LowerTopSame(p);
      PickedPlace(p);
      [PickNext(LowerTop(p)).1] + Picks(PickNext(LowerTop(p)).0, n - 1)
  }

  /** After a choice the next is made from the same list, one item on. */
  lemma PickedPlace(p: Place)
    requires Sound(p) && TopList(p).items != []
    ensures Items(LowerTop(p).state, Ready(LowerTop(p).top)) != []
    ensures ListOf(LowerTop(p).state, Ready(LowerTop(p).top)).at <= |Items(LowerTop(p).state, Ready(LowerTop(p).top))|
    ensures var (q, t) := PickNext(LowerTop(p));
            Sound(q) && TopList(q) == Advance(TopList(p)) && TopList(q).items != [] && t == Selected(Advance(TopList(p))).who
  {
    hide Sound;
    LowerTopSame(p);
    PickIsHighest(LowerTop(p));
    PickIsNext(LowerTop(p));
  }

  function Whos(s: seq<Entry>): (r: seq<Id>)
    ensures |r| == |s| && forall i :: 0 <= i < |s| ==> r[i] == s[i].who
  {
    seq(|s|, i requires 0 <= i < |s| => s[i].who)
  }

  lemma {:induction false} PicksAreSelections(p: Place, n: nat)
    requires Sound(p) && TopList(p).items != []
    ensures Rings.Valid(TopList(p)) && Picks(p, n) == Whos(Selections(TopList(p), n))
    decreases n
  {
    hide Sound, PickNext, LowerTop, Advance, Selected;
    ListIsValid(p);
    LowerTopSame(p);
    PickedPlace(p);
    if n > 0 {
      PicksAreSelections(PickNext(LowerTop(p)).0, n - 1);
    }
  }

  lemma ListIsValid(p: Place)
    requires Sound(p)
    ensures Rings.Valid(TopList(p))
  {
    AtInRange(p);
  }

  /** n choices in a row from n ready items of the highest priority choose each of them once, in
      the order of the list from the index on. */
  lemma ChoicesGoRound(p: Place)
    requires Sound(p) && TopList(p).items != []
    ensures var r := TopList(p); var n := |r.items|;
            && r.at <= n && Picks(p, n) == Whos(r.items[r.at..] + r.items[..r.at])
            && |Picks(p, n)| == n
            && (forall i, j :: 0 <= i < j < n ==> Picks(p, n)[i] != Picks(p, n)[j])
            && (forall t :: t in Picks(p, n) <==> t in p.state.on && p.state.on[t] == Ready(LowerTop(p).top))
  {
    hide Sound, Selections, Picks;
    PicksAreSelections(p, |TopList(p).items|);
    RoundRobin(TopList(p));
    AtInRange(p);
    var r := TopList(p);
    RotatedWhos(r.items, r.at);
    forall t ensures Has(r.items, t) <==> t in p.state.on && p.state.on[t] == Ready(LowerTop(p).top) {
      SoundIsValid(p);
      OnExactlyOneList(p.state, Ready(LowerTop(p).top), t);
    }
  }

  lemma RotatedWhos(s: seq<Entry>, k: nat)
    requires k <= |s| && Separate(s)
    ensures var w := Whos(s[k..] + s[..k]);
            (forall i, j :: 0 <= i < j < |w| ==> w[i] != w[j]) && (forall t :: t in w <==> Has(s, t))
  {
    var z := s[k..] + s[..k];
    var w := Whos(z);
    assert forall i :: 0 <= i < |z| ==> z[i] == s[if i < |s| - k then i + k else i - (|s| - k)];
    forall t ensures t in w <==> Has(s, t) {
      if Has(s, t) {
        var i :| 0 <= i < |s| && s[i].who == t;
        assert z[if i < k then i + |s| - k else i - k] == s[i];
        assert w[if i < k then i + |s| - k else i - k] == t;
      }
      if t in w {
        var i :| 0 <= i < |w| && w[i] == t;
        assert s[if i < |s| - k then i + k else i - (|s| - k)].who == t;
      }
    }
  }

  // ---- Tasks ----

  /** The tasks that run after each of n context switches in a row. */
  ghost function Runners(k: K.State, n: nat): seq<Id>
    requires K.Inv(k) && k.locks == 0
    decreases n
  {
    hide InOrder, NonePending, AlwaysReady, LowerTop;
    if n == 0 then []
    else
      K.SwitchPicksHighest(k);
      SwitchStaysUnlocked(k);
      [K.SwitchContext(k).running] + Runners(K.SwitchContext(k), n - 1)
  }

  lemma SwitchStaysUnlocked(k: K.State)
    requires Sound(k.place)
    ensures K.SwitchContext(k).locks == k.locks
  {
    hide Sound, LowerTop;
  }

  lemma SwitchIsPick(k: K.State)
    requires K.Inv(k) && k.locks == 0
    ensures TopList(k.place).items != []
    ensures Items(LowerTop(k.place).state, Ready(LowerTop(k.place).top)) != []
    ensures ListOf(LowerTop(k.place).state, Ready(LowerTop(k.place).top)).at <=
            |Items(LowerTop(k.place).state, Ready(LowerTop(k.place).top))|
    ensures var n := K.SwitchContext(k);
            (n.place, n.running) == PickNext(LowerTop(k.place)) && K.Inv(n) && n.locks == 0
  {
    hide Sound, LowerTop, NonePending, AlwaysReady;
    K.SwitchPicksHighest(k);
    LowerTopSame(k.place);
    SwitchStaysUnlocked(k);
  }

  lemma {:induction false} RunnersArePicks(k: K.State, n: nat)
    requires K.Inv(k) && k.locks == 0
    ensures Sound(k.place) && TopList(k.place).items != [] && Runners(k, n) == Picks(k.place, n)
    decreases n
  {
    hide K.Inv, Sound, K.SwitchContext, PickNext, LowerTop, TopList;
    K.InvIsSound(k);
    SwitchIsPick(k);
    if n > 0 {
      RunnersArePicks(K.SwitchContext(k), n - 1);
    }
  }

  /** n context switches in a row, with n tasks ready at the highest priority, make each of them
      run once, beginning behind the one the index of their list rests on. */
  lemma TasksTakeTurns(k: K.State)
    requires K.Inv(k) && k.locks == 0
    ensures var p := k.place; var r := TopList(p); var n := |r.items|;
            && n > 0 && r.at <= n && Runners(k, n) == Whos(r.items[r.at..] + r.items[..r.at])
            && (forall i, j :: 0 <= i < j < n ==> Runners(k, n)[i] != Runners(k, n)[j])
            && (forall t :: t in Runners(k, n) <==> t in p.state.on && p.state.on[t] == Ready(LowerTop(p).top))
  {
    hide K.Inv, Sound, Runners, Picks, LowerTop, TopList;
    K.InvIsSound(k);
    RunnersArePicks(k, 0);
    RunnersArePicks(k, |TopList(k.place).items|);
    ChoicesGoRound(k.place);
  }

  // ---- Co-routines ----

  ghost function Currents(c: C.Co, n: nat): seq<Id>
    requires Sound(c.place)
    decreases n
  {
    if n == 0 then []
    else
      C.ChosenIsHighest(c);
      [C.Chosen(c).current] + Currents(C.Chosen(c), n - 1)
  }

  lemma {:induction false} CurrentsArePicks(c: C.Co, n: nat)
    requires Sound(c.place) && TopList(c.place).items != []
    ensures Currents(c, n) == Picks(c.place, n)
    decreases n
  {
    hide Sound, PickNext, LowerTop;
    C.ChosenIsHighest(c);
    LowerTopSame(c.place);
    PickedPlace(c.place);
    if n > 0 {
      CurrentsArePicks(C.Chosen(c), n - 1);
    }
  }

  /** So with co-routines: n choices in a row choose each of the n ready ones of the highest
      priority once. */
  lemma CoRoutinesTakeTurns(c: C.Co)
    requires Sound(c.place) && TopList(c.place).items != []
    ensures var p := c.place; var r := TopList(p); var n := |r.items|;
            && r.at <= n && Currents(c, n) == Whos(r.items[r.at..] + r.items[..r.at])
            && (forall i, j :: 0 <= i < j < n ==> Currents(c, n)[i] != Currents(c, n)[j])
            && (forall t :: t in Currents(c, n) <==> t in p.state.on && p.state.on[t] == Ready(LowerTop(p).top))
  {
    hide Sound, Currents, Picks, LowerTop, TopList;
    CurrentsArePicks(c, |TopList(c.place).items|);
    ChoicesGoRound(c.place);
  }
}
