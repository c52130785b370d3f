/**
  The storage of a queue, one slot an item: where pcReadFrom and pcWriteTo go, and why
  the queue is a sequence of at most uxLength items that can be added to at both ends.
*/
module ItemRings {

  datatype ItemRing<T> = ItemRing(slots: seq<T>, read: nat, write: nat, count: nat)

  /** Slot k steps on, around a ring of n slots. */
  function Around(k: nat, n: nat): (r: nat)
    requires 0 < n && k <= 2 * n
    ensures r < n && (k == r || k == r + n || k == r + 2 * n)
  {
    if k < n then k else if k < 2 * n then k - n else 0
  }

  /** pcWriteTo is always count + 1 slots past pcReadFrom. */
  ghost predicate Valid<T>(r: ItemRing<T>) {
    && r.read < |r.slots| && r.count <= |r.slots|
    && r.write == Around(r.read + 1 + r.count, |r.slots|)
  }

  ghost function Contents<T>(r: ItemRing<T>): (s: seq<T>)
    requires Valid(r)
    ensures |s| == r.count
    ensures forall i :: 0 <= i < r.count ==> s[i] == r.slots[Around(r.read + 1 + i, |r.slots|)]
  {
    seq(r.count, i requires 0 <= i < r.count => r.slots[Around(r.read + 1 + i, |r.slots|)])
  }

  function Forth(k: nat, n: nat): nat {
    if k + 1 >= n then 0 else k + 1
  }

  function Back(k: nat, n: nat): nat
    requires 0 < n
  {
    if k == 0 then n - 1 else k - 1
  }

  /** queueSEND_TO_BACK */
  function PutBack<T>(r: ItemRing<T>, x: T): ItemRing<T>
    requires r.write < |r.slots|
  {
    ItemRing(r.slots[r.write := x], r.read, Forth(r.write, |r.slots|), r.count + 1)
  }

  /** queueSEND_TO_FRONT */
  function PutFront<T>(r: ItemRing<T>, x: T): ItemRing<T>
    requires r.read < |r.slots|
  {
    ItemRing(r.slots[r.read := x], Back(r.read, |r.slots|), r.write, r.count + 1)
  }

  /** queueOVERWRITE */
  function Overwrite<T>(r: ItemRing<T>, x: T): ItemRing<T>
    requires r.read < |r.slots|
  {
    PutFront(r.(count := if r.count > 0 then r.count - 1 else 0), x)
  }

  /** prvCopyDataFromQueue, with the count taken down after it. */
  function Take<T>(r: ItemRing<T>): (ItemRing<T>, T)
    requires r.read < |r.slots| && r.count > 0
  {
    var read := Forth(r.read, |r.slots|);
    (r.(read := read, count := r.count - 1), r.slots[read])
  }

  /** The copy a peek makes before it puts the read position back. */
  function Look<T>(r: ItemRing<T>): T
    requires r.read < |r.slots|
  {
    r.slots[Forth(r.read, |r.slots|)]
  }

  function Reset<T>(r: ItemRing<T>): ItemRing<T>
    requires r.slots != []
  {
    ItemRing(r.slots, |r.slots| - 1, 0, 0)
  }

  lemma PutBackAppends<T>(r: ItemRing<T>, x: T)
    requires Valid(r) && r.count < |r.slots|
    ensures Valid(PutBack(r, x)) && Contents(PutBack(r, x)) == Contents(r) + [x]
  {
  }

  lemma PutFrontPrepends<T>(r: ItemRing<T>, x: T)
    requires Valid(r) && r.count < |r.slots|
    ensures Valid(PutFront(r, x)) && Contents(PutFront(r, x)) == [x] + Contents(r)
  {
    var s, t := Contents(PutFront(r, x)), [x] + Contents(r);
    assert |s| == |t|;
    forall i | 0 <= i < |s| ensures s[i] == t[i] {
      if i > 0 {
        assert t[i] == Contents(r)[i - 1];
      }
    }
  }

  /** On a queue of one item an overwrite leaves exactly the new item. */
  lemma OverwriteReplaces<T>(r: ItemRing<T>, x: T)
    requires Valid(r) && |r.slots| == 1
    ensures Valid(Overwrite(r, x)) && Contents(Overwrite(r, x)) == [x]
  {
  }

  lemma TakeTakesTheFirst<T>(r: ItemRing<T>)
    requires Valid(r) && r.count > 0
    ensures Valid(Take(r).0)
    ensures Contents(r) == [Take(r).1] + Contents(Take(r).0)
    ensures Look(r) == Take(r).1
  {
    hide Around, Contents;
    StepForth(r.read, |r.slots|, r.count);
    var s, t := Contents(r), Contents(Take(r).0);
    forall i | 0 < i < |s| ensures s[i] == t[i - 1] {
      StepForth(r.read, |r.slots|, i);
    }
  }

  /** From the next slot it is one step less. */
  lemma StepForth(k: nat, n: nat, i: nat)
    requires k < n && i <= n
    ensures Forth(k, n) < n && Around(k + 1, n) == Forth(k, n)
    ensures i > 0 ==> Around(k + 1 + i, n) == Around(Forth(k, n) + 1 + (i - 1), n)
  {
  }

  lemma ResetEmpties<T>(r: ItemRing<T>)
    requires r.slots != []
    ensures Valid(Reset(r)) && Contents(Reset(r)) == []
  {
  }

  // ---- Runs ----

  datatype Op<T> = SendBack(x: T) | SendFront(x: T) | SendOver(x: T) | Receive | Peek | Clear

  /** What a call gives back: nothing, or the item. */
  datatype Reply<T> = Done | Refused | Item(x: T)

  /** The calls as they test for room and for messages. */
  function Do<T>(r: ItemRing<T>, op: Op<T>): (ItemRing<T>, Reply<T>)
    requires r.read < |r.slots| && r.write < |r.slots|
  {
    match op
    case SendBack(x) => if r.count < |r.slots| then (PutBack(r, x), Done) else (r, Refused)
    case SendFront(x) => if r.count < |r.slots| then (PutFront(r, x), Done) else (r, Refused)
    case SendOver(x) => (Overwrite(r, x), Done)
    case Receive => if r.count > 0 then (Take(r).0, Item(Take(r).1)) else (r, Refused)
    case Peek => if r.count > 0 then (r, Item(Look(r))) else (r, Refused)
    case Clear => (Reset(r), Done)
  }

  /** The same calls on a sequence of at most max items. */
  function OnSeq<T>(s: seq<T>, max: nat, op: Op<T>): (seq<T>, Reply<T>) {
    match op
    case SendBack(x) => if |s| < max then (s + [x], Done) else (s, Refused)
    case SendFront(x) => if |s| < max then ([x] + s, Done) else (s, Refused)
    case SendOver(x) => ([x], Done)
    case Receive => if s != [] then (s[1..], Item(s[0])) else (s, Refused)
    case Peek => if s != [] then (s, Item(s[0])) else (s, Refused)
    case Clear => ([], Done)
  }

  lemma DoRefines<T>(r: ItemRing<T>, op: Op<T>)
    requires Valid(r) && (op.SendOver? ==> |r.slots| == 1)
    ensures var (q, reply) := Do(r, op);
            && Valid(q) && |q.slots| == |r.slots|
            && (Contents(q), reply) == OnSeq(Contents(r), |r.slots|, op)
  {
    hide Contents;
    match op
    case SendBack(x) => if r.count < |r.slots| { PutBackAppends(r, x); }
    case SendFront(x) => if r.count < |r.slots| { PutFrontPrepends(r, x); }
    case SendOver(x) => OverwriteReplaces(r, x);
    case Receive => if r.count > 0 { TakeTakesTheFirst(r); }
    case Peek => if r.count > 0 { TakeTakesTheFirst(r); }
    case Clear => ResetEmpties(r);
  }

  ghost function Replies<T>(r: ItemRing<T>, ops: seq<Op<T>>): seq<Reply<T>>
    requires Valid(r) && forall i :: 0 <= i < |ops| ==> ops[i].SendOver? ==> |r.slots| == 1
    decreases |ops|
  {
    if ops == [] then []
    else
      DoRefines(r, ops[0]);
      [Do(r, ops[0]).1] + Replies(Do(r, ops[0]).0, ops[1..])
  }

  function SeqReplies<T>(s: seq<T>, max: nat, ops: seq<Op<T>>): seq<Reply<T>>
    decreases |ops|
  {
    if ops == [] then []
    else [OnSeq(s, max, ops[0]).1] + SeqReplies(OnSeq(s, max, ops[0]).0, max, ops[1..])
  }

  /** Any run of calls gets the same replies from the ring as from the bounded sequence. */
  lemma {:induction false} RingIsBoundedDeque<T>(r: ItemRing<T>, ops: seq<Op<T>>)
    requires Valid(r) && forall i :: 0 <= i < |ops| ==> ops[i].SendOver? ==> |r.slots| == 1
    ensures Replies(r, ops) == SeqReplies(Contents(r), |r.slots|, ops)
    decreases |ops|
  {
    if ops != [] {
      DoRefines(r, ops[0]);
      RingIsBoundedDeque(Do(r, ops[0]).0, ops[1..]);
    }
  }
}
