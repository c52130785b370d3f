/**
  Lists ordered by item value, as vListInsert keeps them, for items whose value is a
  wrapped time. Lifting a list into an epoch reads its values as unbounded times.
*/
module TimedLists {
  import opened Rings
  import opened Ticks

  type Id = nat

  datatype Entry = Entry(who: Id, value: nat)

  function Values(s: seq<Entry>): (r: seq<nat>)
    ensures |r| == |s|
    ensures forall i :: 0 <= i < |s| ==> r[i] == s[i].value
  {
    seq(|s|, i requires 0 <= i < |s| => s[i].value)
  }

  /** vListInsert */
  function InsertSorted(s: seq<Entry>, x: Entry): seq<Entry> {
    Splice(s, InsertPos(Values(s), x.value), x)
  }

  /** How many entries at the head of a list have a value of at most limit. */
  function Due(s: seq<Entry>, limit: nat): (k: nat)
    ensures k <= |s|
    ensures forall i :: 0 <= i < k ==> s[i].value <= limit
    ensures k < |s| ==> limit < s[k].value
  {
    InsertPos(Values(s), limit)
  }

  function IndexFrom(s: seq<Entry>, who: Id, k: nat): (i: nat)
    requires k <= |s|
    ensures k <= i <= |s|
    ensures i < |s| ==> s[i].who == who
    ensures forall j :: k <= j < i ==> s[j].who != who
    decreases |s| - k
  {
    if k == |s| || s[k].who == who then k else IndexFrom(s, who, k + 1)
  }

  ghost predicate Has(s: seq<Entry>, who: Id) {
    exists i :: 0 <= i < |s| && s[i].who == who
  }

  /** uxListRemove, for the item of the given owner. */
  function Without(s: seq<Entry>, who: Id): seq<Entry> {
    var i := IndexFrom(s, who, 0);
    if i < |s| then Cut(s, i) else s
  }

  /** No owner has two items here. */
  ghost predicate Separate(s: seq<Entry>) {
    forall i, j :: 0 <= i < j < |s| ==> s[i].who != s[j].who
  }

  ghost predicate Ascending(s: seq<Entry>) {
    forall i, j :: 0 <= i < j < |s| ==> s[i].value <= s[j].value
  }

  ghost predicate Within(s: seq<Entry>, low: int, high: int) {
    forall i :: 0 <= i < |s| ==> low < s[i].value < high
  }

  function Lift(s: seq<Entry>, epoch: nat): (r: seq<Entry>)
    ensures |r| == |s|
    ensures forall i :: 0 <= i < |s| ==> r[i] == Entry(s[i].who, Abs(epoch, s[i].value))
  {
    seq(|s|, i requires 0 <= i < |s| => Entry(s[i].who, Abs(epoch, s[i].value)))
  }

  // ---- Facts about sorted insertion and removal ----

  lemma InsertKeepsOrder(s: seq<Entry>, x: Entry)
    requires Ascending(s)
    ensures Ascending(InsertSorted(s, x))
  {
    hide InsertPos, Splice;
    InsertPosKeepsSorted(Values(s), x.value);
    ValuesOfSplice(s, InsertPos(Values(s), x.value), x);
  }

  lemma ValuesOfSplice(s: seq<Entry>, p: nat, x: Entry)
    requires p <= |s|
    ensures |Splice(s, p, x)| == |s| + 1 && Values(Splice(s, p, x)) == Splice(Values(s), p, x.value)
  {
  }

  lemma InsertKeepsSeparate(s: seq<Entry>, x: Entry)
    requires Separate(s) && !Has(s, x.who)
    ensures Separate(InsertSorted(s, x))
  {
  }

  lemma InsertKeepsWithin(s: seq<Entry>, x: Entry, low: int, high: int)
    requires Within(s, low, high) && low < x.value < high
    ensures Within(InsertSorted(s, x), low, high)
  {
  }

  /** Sorted insertion is stable: a tie goes behind the entries already there. */
  lemma InsertIsStable(s: seq<Entry>, x: Entry)
    requires Ascending(s)
    ensures var p := InsertPos(Values(s), x.value);
            && InsertSorted(s, x) == s[..p] + [x] + s[p..]
            && (forall i :: 0 <= i < |s| ==> (i < p <==> s[i].value <= x.value))
  {
    InsertPosKeepsSorted(Values(s), x.value);
  }

  lemma WithoutFacts(s: seq<Entry>, who: Id)
    requires Separate(s)
    ensures !Has(Without(s, who), who) && Separate(Without(s, who))
    ensures Ascending(s) ==> Ascending(Without(s, who))
  {
    var i := IndexFrom(s, who, 0);
    if i < |s| {
      var t := Cut(s, i);
      assert forall j :: 0 <= j < |t| ==> t[j] == if j < i then s[j] else s[j + 1];
    }
  }

  lemma WithoutMembers(s: seq<Entry>, who: Id, x: Entry)
    requires Separate(s)
    ensures x in Without(s, who) <==> x in s && x.who != who
  {
    var i := IndexFrom(s, who, 0);
    if i < |s| {
      CutFacts(s, i);
      if x in Cut(s, i) && x.who == who {
        WithoutFacts(s, who);
      }
    }
  }

  // ---- Lifting commutes with every list operation ----

  lemma {:induction false} ScanOfLift(s: seq<Entry>, epoch: nat, v: nat, k: nat)
    requires k <= |s|
    ensures ScanFrom(Values(Lift(s, epoch)), Abs(epoch, v), k) == ScanFrom(Values(s), v, k)
    decreases |s| - k
  {
    if k < |s| && s[k].value <= v {
      ScanOfLift(s, epoch, v, k + 1);
    }
  }

  lemma DueOfLift(s: seq<Entry>, epoch: nat, v: nat)
    ensures Due(Lift(s, epoch), Abs(epoch, v)) == Due(s, v)
  {
    ScanOfLift(s, epoch, v, 0);
  }

  lemma LiftOfInsert(s: seq<Entry>, epoch: nat, who: Id, v: nat)
    ensures InsertSorted(Lift(s, epoch), Entry(who, Abs(epoch, v))) == Lift(InsertSorted(s, Entry(who, v)), epoch)
  {
    hide ScanFrom, Splice, Abs, Lift;
    ScanOfLift(s, epoch, v, 0);
    LiftOfSplice(s, epoch, InsertPos(Values(s), v), Entry(who, v));
  }

  lemma LiftOfSplice(s: seq<Entry>, epoch: nat, p: nat, x: Entry)
    requires p <= |s|
    ensures Splice(Lift(s, epoch), p, Entry(x.who, Abs(epoch, x.value))) == Lift(Splice(s, p, x), epoch)
  {
    hide Abs;
  }

  lemma {:induction false} IndexOfLift(s: seq<Entry>, epoch: nat, who: Id, k: nat)
    requires k <= |s|
    ensures IndexFrom(Lift(s, epoch), who, k) == IndexFrom(s, who, k)
    decreases |s| - k
  {
    if k < |s| && s[k].who != who {
      IndexOfLift(s, epoch, who, k + 1);
    }
  }

  lemma LiftOfWithout(s: seq<Entry>, epoch: nat, who: Id)
    ensures Without(Lift(s, epoch), who) == Lift(Without(s, who), epoch)
  {
    IndexOfLift(s, epoch, who, 0);
  }

  // ---- An insertion or a removal on two lists joined end to end ----

  lemma {:induction false} ScanLeft(a: seq<nat>, b: seq<nat>, v: nat, k: nat)
    requires k <= |a| && forall i :: 0 <= i < |b| ==> v < b[i]
    ensures ScanFrom(a + b, v, k) == ScanFrom(a, v, k)
    decreases |a| - k
  {
    if k < |a| {
      if a[k] <= v { ScanLeft(a, b, v, k + 1); }
    } else if b != [] {
      assert (a + b)[k] == b[0];
    }
  }

  lemma {:induction false} ScanRight(a: seq<nat>, b: seq<nat>, v: nat, k: nat)
    requires k <= |a| + |b| && forall i :: 0 <= i < |a| ==> a[i] <= v
    ensures ScanFrom(a + b, v, k) == |a| + ScanFrom(b, v, if k < |a| then 0 else k - |a|)
    decreases |a| + |b| - k
  {
    if k < |a| {
      ScanRight(a, b, v, k + 1);
    } else if k < |a| + |b| && b[k - |a|] <= v {
      ScanRight(a, b, v, k + 1);
    }
  }

  lemma JoinedValues(a: seq<Entry>, b: seq<Entry>)
    ensures Values(a + b) == Values(a) + Values(b)
  {
  }

  lemma SpliceLeft<T>(a: seq<T>, b: seq<T>, p: nat, x: T)
    requires p <= |a|
    ensures Splice(a + b, p, x) == Splice(a, p, x) + b
  {
  }

  lemma SpliceRight<T>(a: seq<T>, b: seq<T>, p: nat, x: T)
    requires p <= |b|
    ensures Splice(a + b, |a| + p, x) == a + Splice(b, p, x)
  {
  }

  lemma CutLeft<T>(a: seq<T>, b: seq<T>, i: nat)
    requires i < |a|
    ensures Cut(a + b, i) == Cut(a, i) + b
  {
  }

  lemma CutRight<T>(a: seq<T>, b: seq<T>, i: nat)
    requires i < |b|
    ensures Cut(a + b, |a| + i) == a + Cut(b, i)
  {
  }

  lemma InsertLeft(a: seq<Entry>, b: seq<Entry>, x: Entry)
    requires forall i :: 0 <= i < |b| ==> x.value < b[i].value
    ensures InsertSorted(a + b, x) == InsertSorted(a, x) + b
  {
    JoinedValues(a, b);
    ScanLeft(Values(a), Values(b), x.value, 0);
    SpliceLeft(a, b, InsertPos(Values(a), x.value), x);
  }

  lemma InsertRight(a: seq<Entry>, b: seq<Entry>, x: Entry)
    requires forall i :: 0 <= i < |a| ==> a[i].value <= x.value
    ensures InsertSorted(a + b, x) == a + InsertSorted(b, x)
  {
    JoinedValues(a, b);
    ScanRight(Values(a), Values(b), x.value, 0);
    SpliceRight(a, b, InsertPos(Values(b), x.value), x);
  }

  lemma DueLeft(a: seq<Entry>, b: seq<Entry>, limit: nat)
    requires forall i :: 0 <= i < |b| ==> limit < b[i].value
    ensures Due(a + b, limit) == Due(a, limit)
  {
    ScanLeft(Values(a), Values(b), limit, 0);
    JoinedValues(a, b);
  }

  lemma {:induction false} IndexLeft(a: seq<Entry>, b: seq<Entry>, who: Id, k: nat)
    requires k <= |a|
    ensures IndexFrom(a, who, k) < |a| ==> IndexFrom(a + b, who, k) == IndexFrom(a, who, k)
    ensures IndexFrom(a, who, k) == |a| ==> IndexFrom(a + b, who, k) == IndexFrom(a + b, who, |a|)
    decreases |a| - k
  {
    if k < |a| && a[k].who != who {
      IndexLeft(a, b, who, k + 1);
    }
  }

  lemma {:induction false} IndexRight(a: seq<Entry>, b: seq<Entry>, who: Id, k: nat)
    requires k <= |b|
    ensures IndexFrom(a + b, who, |a| + k) == |a| + IndexFrom(b, who, k)
    decreases |b| - k
  {
    if k < |b| && b[k].who != who {
      IndexRight(a, b, who, k + 1);
    }
  }

  lemma SeparateJoined(a: seq<Entry>, b: seq<Entry>, i: nat, j: nat)
    requires Separate(a + b) && i < |a| && j <= |b|
    ensures j < |b| ==> a[i].who != b[j].who
  {
    var all := a + b;
    assert all[i] == a[i] && (j < |b| ==> all[|a| + j] == b[j]);
  }

  lemma WithoutJoined(a: seq<Entry>, b: seq<Entry>, who: Id)
    requires Separate(a + b)
    ensures Without(a + b, who) == Without(a, who) + Without(b, who)
  {
    hide Separate, Cut, IndexFrom;
    var i, j := IndexFrom(a, who, 0), IndexFrom(b, who, 0);
    IndexLeft(a, b, who, 0);
    IndexRight(a, b, who, 0);
    if i < |a| {
      SeparateJoined(a, b, i, j);
      CutLeft(a, b, i);
    } else if j < |b| {
      CutRight(a, b, j);
    }
  }
}
