/**
  The rendezvous that xEventGroupSync is for: tasks with a bit each that call it with the
  same mask, round after round, without a timeout and with no other writer.
*/
module Barriers {
  import opened EventGroups

  datatype World = World(
    group: Group,
    bit: seq<Bits>,             // bit[t] is the bit that task t sets
    inside: set<Task>,          // tasks that have called and not returned yet
    calls: map<Task, nat>,      // how often each task has called
    returned: map<Task, nat>,   // and returned
    item: map<Task, Bits>,      // the value a task inside returns with once it is released
    round: nat)                 // history: how many rounds have been completed

  /** The bits of the first k tasks together. */
  function Union(bit: seq<Bits>, k: nat): Bits
    requires k <= |bit|
    decreases k
  {
    if k == 0 then 0 else Join(Union(bit, k - 1), bit[k - 1])
  }

  function Mask(w: World): Bits {
    Union(w.bit, |w.bit|)
  }

  ghost predicate OnList(s: seq<Item>, t: Task) {
    exists i :: 0 <= i < |s| && s[i].who == t
  }

  /** Each task has a bit of its own. */
  ghost predicate OwnBits(bit: seq<Bits>) {
    && |bit| > 0
    && (forall t :: 0 <= t < |bit| ==> Usable(bit[t]) && bit[t] != 0)
    && (forall t, u :: 0 <= t < |bit| && 0 <= u < |bit| && t != u ==> !Touches(bit[t], bit[u]))
  }

  /** Task t calls xEventGroupSync. If it is the last to arrive, it does not block, and the
      waiters have been released on the way; otherwise it joins them. */
  function Arrive(w: World, t: Task): World
    requires t < |w.bit| && t in w.calls && Allowed(w.group, Sync(t, w.bit[t], Mask(w), true))
  {
    var bits := Join(w.group.bits, w.bit[t]);
    var last := Includes(bits, Mask(w));
    var item := Deliver(w.item, w.group.waiting, bits, |w.group.waiting|);
    w.(group := Apply(w.group, Sync(t, w.bit[t], Mask(w), true)),
       inside := w.inside + {t}, calls := w.calls[t := w.calls[t] + 1],
       item := if last then item[t := PackResult(bits)] else item,
       round := if last then w.round + 1 else w.round)
  }

  /** Task t runs again after it has been released, and returns. */
  function Return(w: World, t: Task): World
    requires t in w.returned
  {
    w.(inside := w.inside - {t}, returned := w.returned[t := w.returned[t] + 1])
  }

  datatype Step = Arrives(t: Task) | Returns(t: Task)

  ghost predicate Enabled(w: World, s: Step) {
    && s.t < |w.bit| && s.t in w.calls && s.t in w.returned
    && match s
       case Arrives(t) => t !in w.inside && Allowed(w.group, Sync(t, w.bit[t], Mask(w), true))
       case Returns(t) => t in w.inside && !OnList(w.group.waiting, t)
  }

  function Next(w: World, s: Step): World
    requires s.t < |w.bit| && s.t in w.calls && s.t in w.returned
    requires s.Arrives? ==> Allowed(w.group, Sync(s.t, w.bit[s.t], Mask(w), true))
  {
    match s
    case Arrives(t) => Arrive(w, t)
    case Returns(t) => Return(w, t)
  }

  // ---- Facts about bits ----

  lemma JoinIncludes(a: Bits, b: Bits)
    ensures Includes(Join(a, b), a) && Includes(Join(a, b), b)
  {
  }

  lemma IncludesTransitive(a: Bits, b: Bits, c: Bits)
    requires Includes(a, b) && Includes(b, c)
    ensures Includes(a, c)
  {
  }

  lemma IncludesBoth(a: Bits, b: Bits, c: Bits)
    requires Includes(c, a) && Includes(c, b)
    ensures Includes(c, Join(a, b))
  {
    assert c & (a | b) == (c & a) | (c & b);
  }

  lemma IncludesJoin(a: Bits, b: Bits, c: Bits)
    ensures Includes(Join(a, b), a) && Includes(Join(a, b), b)
    ensures Includes(a, c) || Includes(b, c) ==> Includes(Join(a, b), c)
    ensures Includes(c, a) && Includes(c, b) ==> Includes(c, Join(a, b))
  {
    hide Includes, Join;
    JoinIncludes(a, b);
    if Includes(a, c) {
      IncludesTransitive(Join(a, b), a, c);
    }
    if Includes(b, c) {
      IncludesTransitive(Join(a, b), b, c);
    }
    if Includes(c, a) && Includes(c, b) {
      IncludesBoth(a, b, c);
    }
  }

  lemma IncludedTouches(a: Bits, b: Bits)
    requires Includes(a, b) && b != 0
    ensures Touches(a, b)
  {
  }

  lemma NothingLeft(bits: Bits, clear: Bits, mask: Bits)
    requires Includes(mask, bits)
    ensures Less(Less(bits, clear), mask) == 0
    ensures Less(bits, 0) == bits
  {
  }

  lemma ZeroBits(mask: Bits, b: Bits)
    ensures Includes(mask, 0) && !Touches(0, b)
    ensures Includes(0, mask) ==> mask == 0
  {
  }

  lemma IncludedUsable(mask: Bits, bits: Bits)
    requires Includes(mask, bits) && Usable(mask)
    ensures Usable(bits)
  {
  }

  lemma DisjointFromAll(bits: Bits, mask: Bits)
    requires Includes(mask, bits) && !Touches(bits, mask)
    ensures bits == 0
  {
  }

  lemma {:induction false} UnionHasEach(bit: seq<Bits>, k: nat, t: Task)
    requires t < k <= |bit|
    ensures Includes(Union(bit, k), bit[t])
    decreases k
  {
    hide Includes, Join;
    IncludesJoin(Union(bit, k - 1), bit[k - 1], bit[t]);
    if t < k - 1 {
      UnionHasEach(bit, k - 1, t);
    }
  }

  lemma {:induction false} UnionIncluded(bit: seq<Bits>, k: nat, bits: Bits)
    requires k <= |bit| && forall t :: 0 <= t < k ==> Includes(bits, bit[t])
    ensures Includes(bits, Union(bit, k))
    decreases k
  {
    hide Includes, Join;
    ZeroBits(bits, 0);
    if k > 0 {
      UnionIncluded(bit, k - 1, bits);
      IncludesJoin(Union(bit, k - 1), bit[k - 1], bits);
    }
  }

  lemma {:induction false} UnionUsable(bit: seq<Bits>, k: nat)
    requires k <= |bit| && forall t :: 0 <= t < |bit| ==> Usable(bit[t])
    ensures Usable(Union(bit, k))
    decreases k
  {
    if k > 0 {
      UnionUsable(bit, k - 1);
      JoinUsable(Union(bit, k - 1), bit[k - 1]);
    }
  }

  lemma {:induction false} UnionUntouched(bit: seq<Bits>, k: nat, bits: Bits)
    requires k <= |bit| && forall t :: 0 <= t < k ==> !Touches(bits, bit[t])
    ensures !Touches(bits, Union(bit, k))
    decreases k
  {
    hide Touches, Join;
    TouchesSwapped(bits, 0, 0);
    if k > 0 {
      UnionUntouched(bit, k - 1, bits);
      TouchesSwapped(bits, Union(bit, k - 1), bit[k - 1]);
    }
  }

  lemma TouchesSwapped(bits: Bits, a: Bits, b: Bits)
    ensures Touches(bits, Join(a, b)) <==> Touches(bits, a) || Touches(bits, b)
    ensures !Touches(bits, 0)
  {
    Distribute(a, b, bits);
    OrIsZero(a & bits, b & bits);
    assert bits & (a | b) == (a | b) & bits && bits & a == a & bits && bits & b == b & bits;
  }

  // ---- What a rendezvous keeps ----

  /** The bits that are set are those of the tasks that wait, and not the whole mask. */
  ghost predicate BitsShowWaiters(w: World) {
    && Includes(Mask(w), w.group.bits) && !Includes(w.group.bits, Mask(w))
    && forall t :: 0 <= t < |w.bit| ==>
         if OnList(w.group.waiting, t) then Includes(w.group.bits, w.bit[t]) else !Touches(w.group.bits, w.bit[t])
  }

  ghost predicate ListInOrder(w: World) {
    forall i :: 0 <= i < |w.group.waiting| ==>
      && w.group.waiting[i].who < |w.bit| && w.group.waiting[i].who in w.inside
      && w.group.waiting[i].value == Pack(Mask(w), true, true)
  }

  /** A task that waits has called once more than there are rounds; a task that has been
      released has not returned from the last round yet, and holds a value with the whole mask. */
  ghost predicate InStep(w: World) {
    forall t :: 0 <= t < |w.bit| ==>
      && t in w.calls && t in w.returned
      && w.calls[t] == w.round + (if OnList(w.group.waiting, t) then 1 else 0)
      && w.round == w.returned[t] + (if t in w.inside && !OnList(w.group.waiting, t) then 1 else 0)
      && (t in w.inside && !OnList(w.group.waiting, t) ==> t in w.item && Includes(Wanted(w.item[t]), Mask(w)))
  }

  ghost predicate Inv(w: World) {
    OwnBits(w.bit) && BitsShowWaiters(w) && ListInOrder(w) && InStep(w)
  }

  lemma MaskIsUsable(w: World)
    requires OwnBits(w.bit)
    ensures Usable(Mask(w)) && Mask(w) != 0
    ensures forall t :: 0 <= t < |w.bit| ==> Includes(Mask(w), w.bit[t])
  {
    hide Usable, Includes, Join;
    UnionUsable(w.bit, |w.bit|);
    forall t | 0 <= t < |w.bit| ensures Includes(Mask(w), w.bit[t]) {
      UnionHasEach(w.bit, |w.bit|, t);
    }
    IncludedTouches(Mask(w), w.bit[0]);
    ZeroBits(0, w.bit[0]);
    assert Touches(Mask(w), w.bit[0]);
  }

  /** A waiter is released exactly if the whole mask is there. */
  lemma ReleasedTogether(w: World, bits: Bits, i: nat)
    requires Inv(w) && i < |w.group.waiting|
    ensures Satisfied(w.group.waiting[i], bits) <==> Includes(bits, Mask(w))
  {
    hide Includes, Join, Pack, Satisfied;
    MaskIsUsable(w);
    SameTest(w.group.waiting[i].who, bits, Mask(w), true, true);
  }

  lemma {:induction false} NoneLeaves(values: map<Task, Bits>, s: seq<Item>, bits: Bits, k: nat)
    requires k <= |s| && forall i :: 0 <= i < k ==> !Satisfied(s[i], bits)
    ensures Staying(s, bits, k) == s[..k] && ClearMask(s, bits, k) == 0 && Deliver(values, s, bits, k) == values
    decreases k
  {
    hide Satisfied;
    if k > 0 {
      NoneLeaves(values, s, bits, k - 1);
    }
  }

  lemma {:induction false} AllLeave(s: seq<Item>, bits: Bits, k: nat)
    requires k <= |s| && forall i :: 0 <= i < k ==> Satisfied(s[i], bits)
    ensures Staying(s, bits, k) == []
    decreases k
  {
    hide Satisfied;
    if k > 0 {
      AllLeave(s, bits, k - 1);
    }
  }

  /** The mask is complete exactly when everybody else is already waiting. */
  lemma LastIffOthersWait(w: World, t: Task)
    requires Inv(w) && t < |w.bit|
    ensures Includes(Join(w.group.bits, w.bit[t]), Mask(w)) <==>
            forall u :: 0 <= u < |w.bit| && u != t ==> OnList(w.group.waiting, u)
  {
    hide Includes, Touches, Join, OnList, Union;
    var bits := Join(w.group.bits, w.bit[t]);
    MaskIsUsable(w);
    forall u | 0 <= u < |w.bit| ensures Includes(bits, w.bit[u]) <==> u == t || OnList(w.group.waiting, u) {
      IncludesJoin(w.group.bits, w.bit[t], w.bit[u]);
      TouchesJoin(w.group.bits, w.bit[t], w.bit[u]);
      if Includes(bits, w.bit[u]) {
        IncludedTouches(bits, w.bit[u]);
      }
    }
    if Includes(bits, Mask(w)) {
      forall u | 0 <= u < |w.bit| ensures Includes(bits, w.bit[u]) {
        IncludesTransitive(bits, Mask(w), w.bit[u]);
      }
    }
    if forall u :: 0 <= u < |w.bit| && u != t ==> OnList(w.group.waiting, u) {
      UnionIncluded(w.bit, |w.bit|, bits);
    }
  }

  lemma OnListAppend(s: seq<Item>, x: Item, t: Task)
    ensures OnList(s + [x], t) <==> OnList(s, t) || t == x.who
  {
    if OnList(s, t) {
      var i :| 0 <= i < |s| && s[i].who == t;
      assert (s + [x])[i].who == t;
    }
    assert (s + [x])[|s|] == x;
  }

  /** The group after an arrival that is not the last. */
  lemma EarlyArrival(w: World, t: Task)
    requires Inv(w) && Enabled(w, Arrives(t)) && !Includes(Join(w.group.bits, w.bit[t]), Mask(w))
    ensures Arrive(w, t).group ==
            Group(Join(w.group.bits, w.bit[t]), w.group.waiting + [Item(t, Pack(Mask(w), true, true))])
    ensures Arrive(w, t).item == w.item && Arrive(w, t).round == w.round
  {
    hide Includes, Join, Pack, Satisfied, Union, Usable, Less;
    var bits := Join(w.group.bits, w.bit[t]);
    forall i | 0 <= i < |w.group.waiting| ensures !Satisfied(w.group.waiting[i], bits) {
      ReleasedTogether(w, bits, i);
    }
    NoneLeaves(w.item, w.group.waiting, bits, |w.group.waiting|);
    NothingLeft(bits, 0, bits) by { assert Includes(bits, bits) by { SelfIncluded(bits); } }
    assert w.group.waiting[..|w.group.waiting|] == w.group.waiting;
  }

  lemma SelfIncluded(bits: Bits)
    ensures Includes(bits, bits)
  {
  }

  /** The group after the last arrival: empty, and every bit clear. */
  lemma LastArrival(w: World, t: Task)
    requires Inv(w) && Enabled(w, Arrives(t)) && Includes(Join(w.group.bits, w.bit[t]), Mask(w))
    ensures Arrive(w, t).group == Group(0, [])
    ensures forall u :: 0 <= u < |w.bit| && (u == t || OnList(w.group.waiting, u)) ==>
              u in Arrive(w, t).item && Arrive(w, t).item[u] == PackResult(Join(w.group.bits, w.bit[t]))
  {
    hide Includes, Join, Pack, Satisfied, Union, Usable, Less, PackResult;
    var bits, n := Join(w.group.bits, w.bit[t]), |w.group.waiting|;
    forall i | 0 <= i < n ensures Satisfied(w.group.waiting[i], bits) {
      ReleasedTogether(w, bits, i);
    }
    AllLeave(w.group.waiting, bits, n);
    MaskIsUsable(w);
    IncludesJoin(w.group.bits, w.bit[t], Mask(w));
    NothingLeft(bits, ClearMask(w.group.waiting, bits, n), Mask(w));
    forall u | 0 <= u < |w.bit| && OnList(w.group.waiting, u)
      ensures var v := Deliver(w.item, w.group.waiting, bits, n); u in v && v[u] == PackResult(bits)
    {
      DeliveredIffSatisfied(w.item, w.group.waiting, bits, n, u);
    }
  }

  /** What an arrival does apart from the group. */
  lemma ArriveFrame(w: World, t: Task)
    requires Enabled(w, Arrives(t))
    ensures var v := Arrive(w, t);
            && v.bit == w.bit && v.inside == w.inside + {t} && v.returned == w.returned
            && v.calls == w.calls[t := w.calls[t] + 1]
            && v.round == if Includes(Join(w.group.bits, w.bit[t]), Mask(w)) then w.round + 1 else w.round
  {
    hide Includes, Join, Apply, Deliver, PackResult, Union, Usable;
  }

  lemma EarlyBits(w: World, v: World, t: Task)
    requires OwnBits(w.bit) && BitsShowWaiters(w) && t < |w.bit| && v.bit == w.bit
    requires v.group == Group(Join(w.group.bits, w.bit[t]), w.group.waiting + [Item(t, Pack(Mask(w), true, true))])
    requires !Includes(Join(w.group.bits, w.bit[t]), Mask(w))
    ensures BitsShowWaiters(v)
    ensures forall u :: OnList(v.group.waiting, u) <==> OnList(w.group.waiting, u) || u == t
  {
    hide Includes, Touches, Join, Pack, Union, OnList, Usable;
    forall u ensures OnList(v.group.waiting, u) <==> OnList(w.group.waiting, u) || u == t {
      OnListAppend(w.group.waiting, Item(t, Pack(Mask(w), true, true)), u);
    }
    MaskIsUsable(w);
    IncludesJoin(w.group.bits, w.bit[t], Mask(w));
    forall u | 0 <= u < |w.bit|
      ensures if OnList(v.group.waiting, u) then Includes(v.group.bits, w.bit[u]) else !Touches(v.group.bits, w.bit[u])
    {
      IncludesJoin(w.group.bits, w.bit[t], w.bit[u]);
      TouchesJoin(w.group.bits, w.bit[t], w.bit[u]);
    }
  }

  lemma EarlyStep(w: World, v: World, t: Task)
    requires InStep(w) && t < |w.bit| && v.bit == w.bit && t !in w.inside && !OnList(w.group.waiting, t)
    requires v.calls == w.calls[t := w.calls[t] + 1] && v.inside == w.inside + {t}
    requires v.returned == w.returned && v.item == w.item && v.round == w.round
    requires forall u :: OnList(v.group.waiting, u) <==> OnList(w.group.waiting, u) || u == t
    ensures InStep(v)
  {
    hide Includes, Wanted, Union, OnList;
  }

  lemma EarlyArrivalKeeps(w: World, t: Task)
    requires Inv(w) && Enabled(w, Arrives(t)) && !Includes(Join(w.group.bits, w.bit[t]), Mask(w))
    ensures Inv(Arrive(w, t))
  {
    hide Includes, Join, Pack, Union, OnList, Arrive, BitsShowWaiters, InStep, OwnBits, Usable;
    var v := Arrive(w, t);
    EarlyArrival(w, t);
    ArriveFrame(w, t);
    NotInsideNotOnList(w, t);
    EarlyBits(w, v, t);
    EarlyStep(w, v, t);
  }

  lemma NotInsideNotOnList(w: World, t: Task)
    requires ListInOrder(w) && t !in w.inside
    ensures !OnList(w.group.waiting, t)
  {
  }

  /** The group of nobody shows nobody. */
  lemma NobodyWaits(v: World)
    requires OwnBits(v.bit) && v.group == Group(0, [])
    ensures BitsShowWaiters(v) && ListInOrder(v) && forall u :: !OnList(v.group.waiting, u)
  {
    hide Includes, Touches, Union, Pack, Usable;
    MaskIsUsable(v);
    ZeroBits(Mask(v), 0);
    forall u | 0 <= u < |v.bit| ensures !Touches(0, v.bit[u]) {
      ZeroBits(0, v.bit[u]);
    }
  }

  lemma LastStep(w: World, v: World, t: Task, value: Bits)
    requires InStep(w) && t < |w.bit| && v.bit == w.bit && t !in w.inside && !OnList(w.group.waiting, t)
    requires forall u :: OnList(w.group.waiting, u) ==> u in w.inside
    requires forall u :: 0 <= u < |w.bit| && u != t ==> OnList(w.group.waiting, u)
    requires v.calls == w.calls[t := w.calls[t] + 1] && v.inside == w.inside + {t}
    requires v.returned == w.returned && v.round == w.round + 1 && forall u :: !OnList(v.group.waiting, u)
    requires forall u :: 0 <= u < |w.bit| ==> u in v.item && v.item[u] == value
    requires Includes(Wanted(value), Mask(w))
    ensures InStep(v)
  {
    hide Includes, Wanted, Union, OnList;
  }

  /** The value everybody gets has the whole mask. */
  lemma ResultHasMask(w: World, t: Task)
    requires OwnBits(w.bit) && BitsShowWaiters(w) && t < |w.bit|
    requires Includes(Join(w.group.bits, w.bit[t]), Mask(w))
    ensures Includes(Wanted(PackResult(Join(w.group.bits, w.bit[t]))), Mask(w))
  {
    hide Includes, Join, Union, Usable, PackResult, Wanted, OnList, Touches, Clears, WantsAll, WasReleased, Pack;
    MaskIsUsable(w);
    IncludedUsable(Mask(w), w.group.bits);
    JoinUsable(w.group.bits, w.bit[t]);
    PackingIsLossless(Join(w.group.bits, w.bit[t]), true, true);
  }

  lemma LastArrivalKeeps(w: World, t: Task)
    requires Inv(w) && Enabled(w, Arrives(t)) && Includes(Join(w.group.bits, w.bit[t]), Mask(w))
    ensures Inv(Arrive(w, t))
  {
    hide Includes, Join, Union, Usable, PackResult, Wanted, Arrive, OnList, BitsShowWaiters, InStep, OwnBits;
    var v := Arrive(w, t);
    LastArrival(w, t);
    ArriveFrame(w, t);
    LastIffOthersWait(w, t);
    NotInsideNotOnList(w, t);
    OnlyWaitersInside(w, t);
    ResultHasMask(w, t);
    NobodyWaits(v);
    LastStep(w, v, t, PackResult(Join(w.group.bits, w.bit[t])));
  }

  lemma OnlyWaitersInside(w: World, t: Task)
    requires ListInOrder(w)
    ensures forall u :: OnList(w.group.waiting, u) ==> u in w.inside
  {
  }

  lemma ReturnStep(w: World, t: Task)
    requires InStep(w) && t < |w.bit| && t in w.inside && t in w.returned && !OnList(w.group.waiting, t)
    ensures InStep(Return(w, t))
  {
    hide Includes, Wanted, Union, OnList;
  }

  lemma ReturnList(w: World, t: Task)
    requires ListInOrder(w) && t in w.returned && !OnList(w.group.waiting, t)
    ensures ListInOrder(Return(w, t))
  {
    hide Pack, Union;
    assert forall i :: 0 <= i < |w.group.waiting| ==> w.group.waiting[i].who != t;
  }

  lemma ReturnBits(w: World, t: Task)
    requires OwnBits(w.bit) && BitsShowWaiters(w) && t in w.returned
    ensures OwnBits(Return(w, t).bit) && BitsShowWaiters(Return(w, t))
  {
    hide Includes, Touches, Union, OnList, Usable;
  }

  lemma ReturnKeeps(w: World, t: Task)
    requires Inv(w) && Enabled(w, Returns(t))
    ensures Inv(Return(w, t))
  {
    hide OwnBits, BitsShowWaiters, ListInOrder, InStep, Return, OnList;
    ReturnBits(w, t);
    ReturnList(w, t);
    ReturnStep(w, t);
  }

  lemma NextKeeps(w: World, s: Step)
    requires Inv(w) && Enabled(w, s)
    ensures Inv(Next(w, s))
  {
    hide Inv, Includes, Join, Union, Usable;
    match s
    case Arrives(t) =>
      if Includes(Join(w.group.bits, w.bit[t]), Mask(w)) {
        LastArrivalKeeps(w, t);
      } else {
        EarlyArrivalKeeps(w, t);
      }
    case Returns(t) => ReturnKeeps(w, t);
  }

  ghost predicate Possible(w: World, steps: seq<Step>)
    decreases |steps|
  {
    steps == [] || (Enabled(w, steps[0]) && Possible(Next(w, steps[0]), steps[1..]))
  }

  ghost function Run(w: World, steps: seq<Step>): World
    requires Possible(w, steps)
    decreases |steps|
  {
    if steps == [] then w else Run(Next(w, steps[0]), steps[1..])
  }

  ghost predicate Initial(w: World) {
    && OwnBits(w.bit) && w.group == Group(0, []) && w.inside == {} && w.round == 0
    && forall t :: 0 <= t < |w.bit| ==> t in w.calls && t in w.returned && w.calls[t] == w.returned[t] == 0
  }

  lemma InitialInv(w: World)
    requires Initial(w)
    ensures Inv(w)
  {
    hide Includes, Touches, Union;
    MaskIsUsable(w);
    ZeroBits(Mask(w), 0);
    forall u | 0 <= u < |w.bit| ensures !Touches(0, w.bit[u]) {
      ZeroBits(0, w.bit[u]);
    }
  }

  lemma {:induction false} RunKeeps(w: World, steps: seq<Step>)
    requires Inv(w) && Possible(w, steps)
    ensures Inv(Run(w, steps)) && Run(w, steps).bit == w.bit
    decreases |steps|
  {
    if steps != [] {
      NextKeeps(w, steps[0]);
      RunKeeps(Next(w, steps[0]), steps[1..]);
    }
  }

  lemma CleanBetweenRounds(w: World)
    requires Inv(w) && w.group.waiting == []
    ensures w.group.bits == 0
  {
    hide Includes, Touches, Join;
    forall t | 0 <= t < |w.bit| ensures !OnList(w.group.waiting, t) {
    }
    UnionUntouched(w.bit, |w.bit|, w.group.bits);
    DisjointFromAll(w.group.bits, Mask(w));
  }

  /** The barrier, for any number of rounds. Nobody has returned from more rounds than anybody
      has entered; whoever is released holds a value with the whole mask; the bits are clear
      when nobody waits; and somebody is always still to come. */
  lemma Barrier(w: World, steps: seq<Step>, t: Task, u: Task)
    requires Initial(w) && Possible(w, steps) && t < |w.bit| && u < |w.bit|
    ensures var v := Run(w, steps);
            && t in v.calls && t in v.returned && u in v.calls
            && v.returned[t] <= v.calls[u] && v.calls[t] <= v.calls[u] + 1
            && (t in v.inside && !OnList(v.group.waiting, t) ==>
                  t in v.item && Includes(Wanted(v.item[t]), Mask(v)) && v.returned[t] < v.calls[u])
            && (v.group.waiting == [] ==> v.group.bits == 0)
            && !(forall x :: 0 <= x < |v.bit| ==> OnList(v.group.waiting, x))
  {
    hide Includes, Touches, Union, Pack, Wanted;
    InitialInv(w);
    RunKeeps(w, steps);
    var v := Run(w, steps);
    if v.group.waiting == [] {
      CleanBetweenRounds(v);
    }
    SomebodyIsMissing(v);
  }

  lemma SomebodyIsMissing(w: World)
    requires Inv(w)
    ensures !(forall x :: 0 <= x < |w.bit| ==> OnList(w.group.waiting, x))
  {
    hide Includes, Touches, Union, OnList;
    if forall x :: 0 <= x < |w.bit| ==> OnList(w.group.waiting, x) {
      UnionIncluded(w.bit, |w.bit|, w.group.bits);
    }
  }
}
