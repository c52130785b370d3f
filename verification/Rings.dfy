/**
  The order an intrusive kernel list keeps, as a value: the items that follow the
  end marker, and the position of the walking index. Position 0 is the marker
  itself and position k > 0 is the k-th item.
*/
module Rings {

  datatype Ring<T> = Ring(items: seq<T>, at: nat)

  ghost predicate Distinct<T>(s: seq<T>) {
    forall i, j :: 0 <= i < j < |s| ==> s[i] != s[j]
  }

  ghost predicate Valid<T>(r: Ring<T>) {
    r.at <= |r.items| && Distinct(r.items)
  }

  function Splice<T>(s: seq<T>, p: nat, x: T): seq<T>
    requires p <= |s|
  {
    s[..p] + [x] + s[p..]
  }

  function Cut<T>(s: seq<T>, i: nat): seq<T>
    requires i < |s|
  {
    s[..i] + s[i + 1..]
  }

  lemma SpliceFacts<T>(s: seq<T>, p: nat, x: T)
    requires p <= |s|
    ensures |Splice(s, p, x)| == |s| + 1
    ensures forall y :: y in Splice(s, p, x) <==> y in s || y == x
    ensures Distinct(s) && x !in s ==> Distinct(Splice(s, p, x))
  {
    var t := Splice(s, p, x);
    forall y ensures y in t <==> y in s || y == x {
      assert s == s[..p] + s[p..];
    }
    assert forall i :: 0 <= i < p ==> t[i] == s[i];
    assert forall i :: p < i < |t| ==> t[i] == s[i - 1];
  }

  lemma SpliceAt<T>(s: seq<T>, p: nat, x: T, i: nat)
    requires p <= |s| && i < |s|
    ensures Splice(s, p, x)[if i < p then i else i + 1] == s[i]
  {
  }

  lemma CutAt<T>(s: seq<T>, p: nat, i: nat)
    requires p < |s| && i < |s| && i != p
    ensures Cut(s, p)[if i < p then i else i - 1] == s[i]
  {
  }

  lemma CutFacts<T>(s: seq<T>, i: nat)
    requires i < |s|
    ensures forall y :: y in Cut(s, i) ==> y in s
    ensures forall y :: y in s && y != s[i] ==> y in Cut(s, i)
    ensures Distinct(s) ==> Distinct(Cut(s, i)) && s[i] !in Cut(s, i)
  {
    var t := Cut(s, i);
    assert s == s[..i] + [s[i]] + s[i + 1..];
    assert forall j :: 0 <= j < i ==> t[j] == s[j];
    assert forall j :: i <= j < |t| ==> t[j] == s[j + 1];
  }

  lemma TailOfSplice<T>(s: seq<T>, p: nat, x: T)
    requires p < |s|
    ensures Splice(s, p + 1, x)[1..] == Splice(s[1..], p, x)
  {
  }

  lemma TailOfCut<T>(s: seq<T>, i: nat)
    requires i + 1 < |s|
    ensures Cut(s, i + 1)[1..] == Cut(s[1..], i)
  {
  }

  /** The item position just before the index: where vListInsertEnd puts a new item. */
  function Back<T>(r: Ring<T>): nat
    requires r.at <= |r.items|
  {
    if r.at == 0 then |r.items| else r.at - 1
  }

  function Insert<T>(r: Ring<T>, p: nat, x: T): Ring<T>
    requires p <= |r.items|
  {
    Ring(Splice(r.items, p, x), if r.at > p then r.at + 1 else r.at)
  }

  function InsertEnd<T>(r: Ring<T>, x: T): Ring<T>
    requires r.at <= |r.items|
  {
    Insert(r, Back(r), x)
  }

  /** Removing the item the index rests on leaves the index on the item before it. */
  function Remove<T>(r: Ring<T>, i: nat): Ring<T>
    requires i < |r.items|
  {
    Ring(Cut(r.items, i), if r.at > i then r.at - 1 else r.at)
  }

  /** listGET_OWNER_OF_NEXT_ENTRY: one step on, never resting on the marker. */
  function Advance<T>(r: Ring<T>): Ring<T>
    requires r.items != []
  {
    r.(at := if r.at < |r.items| then r.at + 1 else 1)
  }

  function Selected<T>(r: Ring<T>): T
    requires 0 < r.at <= |r.items|
  {
    r.items[r.at - 1]
  }

  /** The scan of vListInsert: on from position k to the first value that exceeds v. */
  function ScanFrom(values: seq<nat>, v: nat, k: nat): (p: nat)
    requires k <= |values|
    ensures k <= p <= |values|
    ensures forall i :: k <= i < p ==> values[i] <= v
    ensures p < |values| ==> v < values[p]
    decreases |values| - k
  {
    if k == |values| || v < values[k] then k else ScanFrom(values, v, k + 1)
  }

  /** The first position whose value exceeds v: where a stable sorted insertion goes. */
  function InsertPos(values: seq<nat>, v: nat): (p: nat)
    ensures p <= |values|
    ensures forall i :: 0 <= i < p ==> values[i] <= v
    ensures p < |values| ==> v < values[p]
  {
    ScanFrom(values, v, 0)
  }

  ghost predicate Sorted(values: seq<nat>) {
    forall i, j :: 0 <= i < j < |values| ==> values[i] <= values[j]
  }

  /** On a sorted list the insertion keeps the order, and ties go after the items already there. */
  lemma InsertPosKeepsSorted(values: seq<nat>, v: nat)
    requires Sorted(values)
    ensures var p := InsertPos(values, v);
            && Sorted(Splice(values, p, v))
            && forall i :: 0 <= i < |values| ==> (i < p <==> values[i] <= v)
  {
    var p := InsertPos(values, v);
    if p < |values| {
      assert forall i :: p <= i < |values| ==> values[p] <= values[i];
    }
  }

  // ---- Round robin ----

  /** The next k items the walking index selects from an unchanged list. */
  function Selections<T>(r: Ring<T>, k: nat): seq<T>
    requires Valid(r) && r.items != []
    decreases k
  {
    if k == 0 then [] else [Selected(Advance(r))] + Selections(Advance(r), k - 1)
  }

  lemma {:induction false} SelectionAt<T>(r: Ring<T>, k: nat, j: nat)
    requires Valid(r) && r.items != [] && j < k <= |r.items|
    ensures |Selections(r, k)| == k
    ensures var n := |r.items|;
            Selections(r, k)[j] == r.items[if r.at + j < n then r.at + j else r.at + j - n]
    decreases k
  {
    if k > 1 {
      SelectionAt(Advance(r), k - 1, if j == 0 then 0 else j - 1);
    } else {
      assert Selections(Advance(r), 0) == [];
    }
  }

  /** n selections from an unchanged list of n items visit every item once, in ring order. */
  lemma RoundRobin<T>(r: Ring<T>)
    requires Valid(r) && r.items != []
    ensures Selections(r, |r.items|) == r.items[r.at..] + r.items[..r.at]
    ensures multiset(Selections(r, |r.items|)) == multiset(r.items)
  {
    SelectionsAreRotation(r);
    Rotate(r.items, r.at);
  }

  lemma SelectionsAreRotation<T>(r: Ring<T>)
    requires Valid(r) && r.items != []
    ensures Selections(r, |r.items|) == r.items[r.at..] + r.items[..r.at]
  {
    hide Selections, Distinct;
    var all, ring := Selections(r, |r.items|), r.items[r.at..] + r.items[..r.at];
    SelectionAt(r, |r.items|, 0);
    forall j | 0 <= j < |all| ensures all[j] == ring[j] {
      SelectionAt(r, |r.items|, j);
    }
  }

  lemma Rotate<T>(s: seq<T>, k: nat)
    requires k <= |s|
    ensures multiset(s[k..] + s[..k]) == multiset(s)
  {
    assert s == s[..k] + s[k..];
  }

  /** How many selections until items[i] is the one selected. */
  function Turns<T>(r: Ring<T>, i: nat): nat
    requires r.at <= |r.items| && i < |r.items|
  {
    if i + 1 > r.at then i + 1 - r.at else |r.items| - r.at + i + 1
  }

  datatype Op<T> = Pick | Add(x: T)

  /** The items selected while picks and insertions before the index alternate freely. */
  function Trace<T>(r: Ring<T>, ops: seq<Op<T>>): seq<T>
    requires r.at <= |r.items| && r.items != []
    decreases |ops|
  {
    if ops == [] then []
    else match ops[0]
      case Pick => [Selected(Advance(r))] + Trace(Advance(r), ops[1..])
      case Add(x) => Trace(InsertEnd(r, x), ops[1..])
  }

  lemma InsertEndKeepsTurns<T>(r: Ring<T>, x: T, i: nat)
    requires r.at <= |r.items| && i < |r.items| && i + 1 != r.at
    ensures var s, j := InsertEnd(r, x), if i < Back(r) then i else i + 1;
            && |s.items| == |r.items| + 1 && s.at <= |s.items|
            && s.items[j] == r.items[i] && Turns(s, j) == Turns(r, i) && j + 1 != s.at
  {
  }

  /** Insertions before the index never delay an item the index is not resting on:
      it is still selected after exactly as many picks as on the unchanged list. */
  lemma {:induction false} InsertionsDoNotDelay<T>(r: Ring<T>, i: nat, ops: seq<Op<T>>)
    requires r.at <= |r.items| && i < |r.items| && i + 1 != r.at
    requires Turns(r, i) <= |Trace(r, ops)|
    ensures Trace(r, ops)[Turns(r, i) - 1] == r.items[i]
    decreases |ops|
  {
    hide Trace, Turns, Advance, Selected, InsertEnd, Back;
    if ops == [] {
      NothingFirst(r, i);
    } else {
      match ops[0]
      case Pick =>
        PickFirst(r, ops);
        TurnsAdvance(r, i);
        if Turns(r, i) > 1 {
          InsertionsDoNotDelay(Advance(r), i, ops[1..]);
        }
      case Add(x) =>
        InsertEndKeepsTurns(r, x, i);
        AddFirst(r, ops);
        InsertionsDoNotDelay(InsertEnd(r, x), if i < Back(r) then i else i + 1, ops[1..]);
    }
  }

  lemma NothingFirst<T>(r: Ring<T>, i: nat)
    requires r.at <= |r.items| && i < |r.items|
    ensures Trace(r, []) == [] && Turns(r, i) > 0
  {
  }

  lemma PickFirst<T>(r: Ring<T>, ops: seq<Op<T>>)
    requires r.at <= |r.items| && r.items != [] && ops != [] && ops[0].Pick?
    ensures Advance(r).items == r.items && 0 < Advance(r).at <= |r.items|
    ensures Trace(r, ops) == [Selected(Advance(r))] + Trace(Advance(r), ops[1..])
  {
  }

  lemma AddFirst<T>(r: Ring<T>, ops: seq<Op<T>>)
    requires r.at <= |r.items| && r.items != [] && ops != [] && ops[0].Add?
    ensures InsertEnd(r, ops[0].x).items != [] && InsertEnd(r, ops[0].x).at <= |InsertEnd(r, ops[0].x).items|
    ensures Trace(r, ops) == Trace(InsertEnd(r, ops[0].x), ops[1..])
  {
  }

  /** A pick brings every item one turn nearer, but for the one it selects. */
  lemma TurnsAdvance<T>(r: Ring<T>, i: nat)
    requires r.at <= |r.items| && i < |r.items| && i + 1 != r.at
    ensures Turns(r, i) > 0 && Advance(r).items == r.items && 0 < Advance(r).at <= |r.items|
    ensures if Turns(r, i) == 1 then i + 1 == Advance(r).at && Selected(Advance(r)) == r.items[i]
            else i + 1 != Advance(r).at && Turns(Advance(r), i) == Turns(r, i) - 1
  {
  }

  /** The item just inserted is the last to be selected: every other item comes first. */
  lemma InsertedComesLast<T>(r: Ring<T>, x: T, i: nat)
    requires r.at <= |r.items| && i <= |r.items|
    ensures var s := InsertEnd(r, x);
            && s.items[Back(r)] == x
            && (r.at == 0 ==> Turns(s, Back(r)) == |s.items|)
            && (r.at > 0 ==> Turns(s, Back(r)) == |s.items| - 1)
            && (i != Back(r) && i + 1 != s.at ==> Turns(s, i) < Turns(s, Back(r)))
  {
  }
}
