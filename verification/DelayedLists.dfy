/**
  The two delayed task lists of tasks.c. Tasks wait in the order of a wrapped wake
  time: those due before the tick counter next comes round to zero on the current
  list, the others on the overflow list, and the lists change places when it does.

  The reference is an Agenda: one list, sorted by unbounded wake times. The main result
  is that over every run the wrapped lists are the agenda, cut at the end of the epoch.
*/
module DelayedLists {
  import opened Rings
  import opened Ticks
  import opened TimedLists

  datatype Delays = Delays(
    tick: nat,               // xTickCount
    overflows: nat,          // xNumOfOverflows
    nextUnblock: nat,        // xNextTaskUnblockTime
    current: seq<Entry>,     // *pxDelayedTaskList
    later: seq<Entry>)       // *pxOverflowDelayedTaskList

  datatype Agenda = Agenda(now: nat, waiting: seq<Entry>)

  // ---- The wrapped lists ----

  function HeadTime(s: seq<Entry>): nat {
    if s == [] then MAX_DELAY else s[0].value
  }

  /** prvResetNextTaskUnblockTime */
  function Recompute(d: Delays): Delays {
    d.(nextUnblock := HeadTime(d.current))
  }

  /** prvAddCurrentTaskToDelayedList, for a wait of w ticks. */
  function Block(d: Delays, who: Id, w: nat): Delays
    requires d.tick < N && w < N
  {
    var v := Plus(d.tick, w);
    if v < d.tick then
      d.(later := InsertSorted(d.later, Entry(who, v)))
    else
      d.(current := InsertSorted(d.current, Entry(who, v)),
         nextUnblock := if v < d.nextUnblock then v else d.nextUnblock)
  }

  /** A task leaves because of an event. */
  function Leave(d: Delays, who: Id): Delays {
    d.(current := Without(d.current, who), later := Without(d.later, who))
  }

  /** taskSWITCH_DELAYED_LISTS */
  function Switch(d: Delays): Delays {
    Recompute(d.(current := d.later, later := d.current, overflows := d.overflows + 1))
  }

  /** The loop of xTaskIncrementTick that removes every task whose time has come. */
  function Expire(d: Delays): (Delays, seq<Entry>) {
    if d.tick < d.nextUnblock then (d, [])
    else
      var k := Due(d.current, d.tick);
      (Recompute(d.(current := d.current[k..])), d.current[..k])
  }

  function Count(d: Delays): Delays
    requires d.tick < N
  {
    var e := d.(tick := Plus(d.tick, 1));
    if e.tick == 0 then Switch(e) else e
  }

  /** xTaskIncrementTick with the scheduler running: the new lists and who timed out, in order. */
  function Tick(d: Delays): (Delays, seq<Entry>)
    requires d.tick < N
  {
    Expire(Count(d))
  }

  // ---- The agenda ----

  function BlockUntil(a: Agenda, who: Id, due: nat): Agenda {
    a.(waiting := InsertSorted(a.waiting, Entry(who, due)))
  }

  function Forget(a: Agenda, who: Id): Agenda {
    a.(waiting := Without(a.waiting, who))
  }

  function TurnPage(a: Agenda): (Agenda, seq<Entry>) {
    var k := Due(a.waiting, a.now + 1);
    (Agenda(a.now + 1, a.waiting[k..]), a.waiting[..k])
  }

  function Pages(a: Agenda, n: nat): Agenda
    decreases n
  {
    if n == 0 then a else Pages(TurnPage(a).0, n - 1)
  }

  /** The agenda without everything that is pending. */
  function ForgetAll(a: Agenda, s: seq<Entry>): Agenda
    decreases |s|
  {
    if s == [] then a else ForgetAll(Forget(a, s[0].who), s[1..])
  }

  /** A time still ahead; or, after a wait of 0 ticks, the present one, which the next tick will
      find, unless the lists change places on it. */
  ghost predicate Ahead(now: nat, due: nat) {
    now < due || (now == due && (now + 1) % 0x1_0000_0000 != 0)
  }

  /** Nothing waits for a time that has passed, and no task waits twice. */
  ghost predicate Tidy(a: Agenda) {
    && Separate(a.waiting)
    && Ascending(a.waiting)
    && forall i :: 0 <= i < |a.waiting| ==> Ahead(a.now, a.waiting[i].value)
  }

  // ---- The refinement ----

  ghost predicate Cuts(d: Delays, a: Agenda) {
    && d.tick < N && a.now == Abs(d.overflows, d.tick)
    && Within(d.current, -1, N) && Within(d.later, -1, N)
    && a.waiting == Lift(d.current, d.overflows) + Lift(d.later, d.overflows + 1)
    && d.nextUnblock <= HeadTime(d.current)
  }

  /** The wrapped lists are the agenda, cut where the epoch ends. */
  ghost predicate Refines(d: Delays, a: Agenda) {
    Tidy(a) && Cuts(d, a) && d.tick <= d.nextUnblock
  }

  /** Tick t is the last one of epoch e exactly if it is N - 1. */
  lemma LastOfEpoch(e: nat, t: nat)
    requires t < N
    ensures (Abs(e, t) + 1) % 0x1_0000_0000 == 0 <==> t == N - 1
  {
  }

  lemma CurrentIsAhead(d: Delays, a: Agenda)
    requires Refines(d, a)
    ensures Within(d.current, d.tick - 1, N)
    ensures d.tick == N - 1 ==> d.current == []
  {
    LastOfEpoch(d.overflows, d.tick);
    forall i | 0 <= i < |d.current| ensures d.tick <= d.current[i].value && d.tick != N - 1 {
      assert a.waiting[i] == Lift(d.current, d.overflows)[i];
    }
  }

  /** The current list is always empty when the counter comes round, and the lists change places. */
  lemma EmptyAtSwitch(d: Delays, a: Agenda)
    requires Refines(d, a) && d.tick == N - 1
    ensures d.current == []
  {
    CurrentIsAhead(d, a);
  }

  /** Which list a task waits on says in which epoch it is due. */
  lemma OnCurrentIffThisEpoch(d: Delays, a: Agenda, i: nat)
    requires Refines(d, a) && i < |a.waiting|
    ensures var x := a.waiting[i];
            && (i < |d.current| <==> x.value < Abs(d.overflows + 1, 0))
            && (i < |d.current| ==> x == Entry(d.current[i].who, Abs(d.overflows, d.current[i].value)))
            && (i >= |d.current| ==> x.value < Abs(d.overflows + 2, 0))
  {
    var a0, b0 := Lift(d.current, d.overflows), Lift(d.later, d.overflows + 1);
    if i < |d.current| {
      assert a.waiting[i] == a0[i];
    } else {
      assert a.waiting[i] == b0[i - |a0|];
    }
  }

  lemma AscendJoined(s: seq<Entry>, t: seq<Entry>)
    requires Ascending(s + t)
    ensures Ascending(s) && Ascending(t)
  {
    var all := s + t;
    assert forall i :: 0 <= i < |s| ==> all[i] == s[i];
    assert forall j :: 0 <= j < |t| ==> t[j] == all[|s| + j];
  }

  lemma AscendLifted(s: seq<Entry>, epoch: nat)
    ensures Ascending(Lift(s, epoch)) <==> Ascending(s)
  {
    var t := Lift(s, epoch);
    assert forall i :: 0 <= i < |s| ==> s[i].value == t[i].value - Abs(epoch, 0);
  }

  lemma BothListsAscend(d: Delays, a: Agenda)
    requires Refines(d, a)
    ensures Ascending(d.current) && Ascending(d.later)
  {
    AscendJoined(Lift(d.current, d.overflows), Lift(d.later, d.overflows + 1));
    AscendLifted(d.current, d.overflows);
    AscendLifted(d.later, d.overflows + 1);
  }

  lemma InsertKeepsTidy(a: Agenda, who: Id, due: nat)
    requires Tidy(a) && !Has(a.waiting, who) && Ahead(a.now, due)
    ensures Tidy(BlockUntil(a, who, due))
  {
    hide Ahead;
    InsertKeepsOrder(a.waiting, Entry(who, due));
    InsertKeepsSeparate(a.waiting, Entry(who, due));
  }

  /** A wait that ends in this epoch. */
  lemma BlockNow(d: Delays, a: Agenda, who: Id, v: nat, due: nat)
    requires Cuts(d, a) && v < N && due == Abs(d.overflows, v)
    ensures BlockUntil(a, who, due).waiting ==
            Lift(InsertSorted(d.current, Entry(who, v)), d.overflows) + Lift(d.later, d.overflows + 1)
  {
    hide InsertSorted, Values;
    LiftOfInsert(d.current, d.overflows, who, v);
    InsertLeft(Lift(d.current, d.overflows), Lift(d.later, d.overflows + 1), Entry(who, due));
  }

  /** A wait that ends in the next epoch. */
  lemma BlockLater(d: Delays, a: Agenda, who: Id, v: nat, due: nat)
    requires Cuts(d, a) && due == Abs(d.overflows + 1, v)
    ensures BlockUntil(a, who, due).waiting ==
            Lift(d.current, d.overflows) + Lift(InsertSorted(d.later, Entry(who, v)), d.overflows + 1)
  {
    hide InsertSorted, Values;
    LiftOfInsert(d.later, d.overflows + 1, who, v);
    InsertRight(Lift(d.current, d.overflows), Lift(d.later, d.overflows + 1), Entry(who, due));
  }

  lemma HeadAfterInsert(s: seq<Entry>, x: Entry, next: nat)
    requires next <= HeadTime(s)
    ensures (if x.value < next then x.value else next) <= HeadTime(InsertSorted(s, x))
  {
    var p := InsertPos(Values(s), x.value);
    assert InsertSorted(s, x)[0] == if p == 0 then x else s[0];
  }

  /** A wait of w ticks that the lists can hold. */
  predicate Holds(tick: nat, w: nat) {
    w < N && (w == 0 ==> tick != N - 1)
  }

  /** Blocking for w ticks on the wrapped lists is blocking until the absolute due time. */
  lemma BlockRefines(d: Delays, a: Agenda, who: Id, w: nat)
    requires Refines(d, a) && !Has(a.waiting, who) && Holds(d.tick, w)
    ensures Refines(Block(d, who, w), BlockUntil(a, who, a.now + w))
  {
    hide Lift, InsertSorted, Tidy, Within, Has, HeadTime;
    var due := a.now + w;
    assert Ahead(a.now, due) by { LastOfEpoch(d.overflows, d.tick); }
    InsertKeepsTidy(a, who, due);
    if d.tick + w < N {
      var v := d.tick + w;
      BlockNow(d, a, who, v, due);
      InsertKeepsWithin(d.current, Entry(who, v), -1, N);
      HeadAfterInsert(d.current, Entry(who, v), d.nextUnblock);
    } else {
      var v := d.tick + w - N;
      BlockLater(d, a, who, v, due);
      InsertKeepsWithin(d.later, Entry(who, v), -1, N);
    }
  }

  /** A wait of 0 ticks that begins one tick before the counter comes round would still be on
      the current list when the lists change places; any other wait is held as it should. */
  lemma BlockIsHeldIff(d: Delays, a: Agenda, who: Id, w: nat)
    requires Refines(d, a) && !Has(a.waiting, who) && w < N
    ensures Refines(Block(d, who, w), BlockUntil(a, who, a.now + w)) <==> Holds(d.tick, w)
    ensures !Holds(d.tick, w) ==> Block(d, who, w).tick == N - 1 && Block(d, who, w).current != []
  {
    if Holds(d.tick, w) {
      BlockRefines(d, a, who, w);
    } else {
      hide Refines;
      CurrentAfterZero(d, who);
      if Refines(Block(d, who, w), BlockUntil(a, who, a.now + w)) {
        EmptyAtSwitch(Block(d, who, w), BlockUntil(a, who, a.now + w));
      }
    }
  }

  lemma CurrentAfterZero(d: Delays, who: Id)
    requires d.tick == N - 1
    ensures Block(d, who, 0).tick == N - 1 && |Block(d, who, 0).current| > 0
  {
  }

  lemma LeaveRefines(d: Delays, a: Agenda, who: Id)
    requires Refines(d, a)
    ensures Refines(Leave(d, who), Forget(a, who))
  {
    BothListsAscend(d, a);
    LeaveCuts(d, a, who);
    ForgetKeepsTidy(a, who);
  }

  lemma ForgetKeepsTidy(a: Agenda, who: Id)
    requires Tidy(a)
    ensures Tidy(Forget(a, who))
  {
    WithoutFacts(a.waiting, who);
  }

  lemma HeadAfterWithout(s: seq<Entry>, who: Id)
    requires Ascending(s) && Within(s, -1, N)
    ensures HeadTime(s) <= HeadTime(Without(s, who))
  {
    var i := IndexFrom(s, who, 0);
    if i < |s| {
      assert Cut(s, i) != [] ==> Cut(s, i)[0] == if i == 0 then s[1] else s[0];
    }
  }

  lemma WithoutKeepsWithin(s: seq<Entry>, who: Id, low: int, high: int)
    requires Within(s, low, high)
    ensures Within(Without(s, who), low, high)
  {
  }

  lemma LeaveCuts(d: Delays, a: Agenda, who: Id)
    requires Cuts(d, a) && Separate(a.waiting) && Ascending(d.current)
    ensures Cuts(Leave(d, who), Forget(a, who))
  {
    hide Lift, Without, Has, Values;
    WithoutJoined(Lift(d.current, d.overflows), Lift(d.later, d.overflows + 1), who);
    LiftOfWithout(d.current, d.overflows, who);
    LiftOfWithout(d.later, d.overflows + 1, who);
    HeadAfterWithout(d.current, who);
    WithoutKeepsWithin(d.current, who, -1, N);
    WithoutKeepsWithin(d.later, who, -1, N);
  }

  lemma LiftOfNothing(s: seq<Entry>, epoch: nat)
    requires s == []
    ensures Lift(s, epoch) == []
  {
  }

  /** Counting one tick on, and changing the lists over if it wraps. */
  lemma CountRefines(d: Delays, a: Agenda)
    requires Refines(d, a)
    ensures Cuts(Count(d), a.(now := a.now + 1))
  {
    if d.tick == N - 1 {
      EmptyAtSwitch(d, a);
      LiftOfNothing(d.current, d.overflows);
      LiftOfNothing(d.current, d.overflows + 2);
      assert a.waiting == Lift(d.later, d.overflows + 1) + [];
    }
  }

  lemma LiftSplit(s: seq<Entry>, epoch: nat, k: nat)
    requires k <= |s|
    ensures Lift(s, epoch)[..k] == Lift(s[..k], epoch)
    ensures Lift(s, epoch)[k..] == Lift(s[k..], epoch)
  {
  }

  lemma SplitJoined<T>(a: seq<T>, b: seq<T>, k: nat)
    requires k <= |a|
    ensures (a + b)[..k] == a[..k] && (a + b)[k..] == a[k..] + b
  {
  }

  lemma {:induction false} NothingDue(s: seq<Entry>, limit: nat)
    requires s != [] ==> limit < s[0].value
    ensures Due(s, limit) == 0
  {
  }

  /** The cached time never hides a task that is due. */
  lemma ExpireTakesTheDue(d: Delays)
    requires d.nextUnblock <= HeadTime(d.current)
    ensures var k, e := Due(d.current, d.tick), Expire(d);
            && e.1 == d.current[..k]
            && e.0.(nextUnblock := 0) == d.(nextUnblock := 0, current := d.current[k..])
            && e.0.nextUnblock <= HeadTime(e.0.current)
            && (d.tick < N ==> d.tick <= e.0.nextUnblock)
  {
    if d.tick < d.nextUnblock {
      NothingDue(d.current, d.tick);
    }
  }

  lemma DueOnAgenda(d: Delays, a: Agenda) returns (k: nat)
    requires Cuts(d, a)
    ensures k == Due(d.current, d.tick) == Due(a.waiting, a.now)
  {
    hide Due, Values, HeadTime;
    k := Due(d.current, d.tick);
    DueOfLift(d.current, d.overflows, d.tick);
    DueLeft(Lift(d.current, d.overflows), Lift(d.later, d.overflows + 1), a.now);
  }

  /** What is due on the current list is what is due on the agenda. */
  lemma ExpireRefines(d: Delays, a: Agenda)
    requires Cuts(d, a)
    ensures var k, e := Due(a.waiting, a.now), Expire(d);
            && Cuts(e.0, a.(waiting := a.waiting[k..]))
            && Lift(e.1, d.overflows) == a.waiting[..k]
  {
    hide Lift, Due, Within, Expire, HeadTime, Abs, Cuts;
    var k := DueOnAgenda(d, a);
    CachedIsLow(d, a);
    ExpireFields(d);
    CutsBehind(d, a, k, Expire(d).0);
  }

  lemma CachedIsLow(d: Delays, a: Agenda)
    requires Cuts(d, a)
    ensures d.nextUnblock <= HeadTime(d.current)
  {
  }

  /** Without their first k entries lists and agenda still agree. */
  lemma CutsBehind(d: Delays, a: Agenda, k: nat, e: Delays)
    requires Cuts(d, a) && k <= |d.current|
    requires e.tick == d.tick && e.overflows == d.overflows && e.later == d.later
    requires e.current == d.current[k..] && e.nextUnblock <= HeadTime(e.current)
    ensures k <= |a.waiting| && Cuts(e, a.(waiting := a.waiting[k..]))
    ensures Lift(d.current[..k], d.overflows) == a.waiting[..k]
  {
    hide Lift, Within, HeadTime, Abs;
    LiftSplit(d.current, d.overflows, k);
    SplitJoined(Lift(d.current, d.overflows), Lift(d.later, d.overflows + 1), k);
    WithinSplit(d.current, k, -1, N);
  }

  lemma ExpireFields(d: Delays)
    requires d.nextUnblock <= HeadTime(d.current)
    ensures var k, e := Due(d.current, d.tick), Expire(d);
            && e.1 == d.current[..k] && e.0.nextUnblock <= HeadTime(e.0.current)
            && e.0.tick == d.tick && e.0.overflows == d.overflows
            && e.0.current == d.current[k..] && e.0.later == d.later
  {
    hide Due, Expire, HeadTime;
    ExpireTakesTheDue(d);
  }

  lemma WithinSplit(s: seq<Entry>, k: nat, low: int, high: int)
    requires k <= |s| && Within(s, low, high)
    ensures Within(s[k..], low, high)
  {
  }

  lemma SplitOrdered(s: seq<Entry>, k: nat)
    requires k <= |s| && Separate(s) && Ascending(s)
    ensures Separate(s[k..]) && Ascending(s[k..])
    ensures forall i :: k <= i < |s| ==> s[k].value <= s[i].value
  {
  }

  lemma TurnPageKeepsTidy(a: Agenda)
    requires Tidy(a)
    ensures Tidy(TurnPage(a).0)
    ensures forall x :: x in TurnPage(a).0.waiting ==> a.now + 1 < x.value
    ensures forall x :: x in TurnPage(a).1 ==> a.now <= x.value <= a.now + 1
  {
    hide Ascending, Separate, Values, Due;
    var k := Due(a.waiting, a.now + 1);
    SplitOrdered(a.waiting, k);
    DueSplits(a.waiting, a.now + 1);
  }

  /** What is due is at the head; on an ordered list all the rest comes later. */
  lemma DueSplits(s: seq<Entry>, limit: nat)
    requires Ascending(s)
    ensures forall x :: x in s[..Due(s, limit)] ==> x in s && x.value <= limit
    ensures forall x :: x in s[Due(s, limit)..] ==> limit < x.value
  {
    hide Values;
    var k := Due(s, limit);
    forall x | x in s[k..] ensures limit < x.value {
      var i :| 0 <= i < |s| - k && x == s[k..][i];
      assert x == s[k + i];
    }
  }

  /** One tick: the same tasks time out, in the same order, each of them exactly when it is due;
      a wait of 0 ticks has lasted one. */
  lemma TickRefines(d: Delays, a: Agenda)
    requires Refines(d, a)
    ensures Refines(Tick(d).0, TurnPage(a).0)
    ensures Lift(Tick(d).1, Tick(d).0.overflows) == TurnPage(a).1
    ensures forall x :: x in TurnPage(a).1 ==> x.value == a.now + 1 || x.value == a.now
  {
    hide Lift, Within, Expire, Count, HeadTime, Tidy, Values;
    CountRefines(d, a);
    ExpireTakesTheDue(Count(d));
    ExpireRefines(Count(d), a.(now := a.now + 1));
    TurnPageKeepsTidy(a);
  }

  // ---- Whole runs ----

  datatype Event = Blocks(who: Id, w: nat) | Leaves(who: Id) | Ticks | Refreshes

  ghost predicate Enabled(d: Delays, e: Event) {
    && d.tick < N
    && (e.Blocks? ==> Holds(d.tick, e.w) && !Has(d.current, e.who) && !Has(d.later, e.who))
  }

  /** The state after one event, and who timed out on it, with the time the clock showed. */
  function Step(d: Delays, e: Event): (r: (Delays, seq<Entry>))
    requires d.tick < N && (e.Blocks? ==> e.w < N)
  {
    match e
    case Blocks(who, w) => (Block(d, who, w), [])
    case Leaves(who) => (Leave(d, who), [])
    case Ticks => (Tick(d).0, Lift(Tick(d).1, Tick(d).0.overflows))
    case Refreshes => (Recompute(d), [])
  }

  function AgendaStep(a: Agenda, e: Event): (Agenda, seq<Entry>) {
    match e
    case Blocks(who, w) => (BlockUntil(a, who, a.now + w), [])
    case Leaves(who) => (Forget(a, who), [])
    case Ticks => TurnPage(a)
    case Refreshes => (a, [])
  }

  ghost predicate Possible(d: Delays, es: seq<Event>)
    decreases |es|
  {
    es == [] || (Enabled(d, es[0]) && Possible(Step(d, es[0]).0, es[1..]))
  }

  ghost function Run(d: Delays, es: seq<Event>): (Delays, seq<Entry>)
    requires Possible(d, es)
    decreases |es|
  {
    if es == [] then (d, [])
    else
      var s := Step(d, es[0]);
      var r := Run(s.0, es[1..]);
      (r.0, s.1 + r.1)
  }

  function AgendaRun(a: Agenda, es: seq<Event>): (Agenda, seq<Entry>)
    decreases |es|
  {
    if es == [] then (a, [])
    else
      var s := AgendaStep(a, es[0]);
      var r := AgendaRun(s.0, es[1..]);
      (r.0, s.1 + r.1)
  }

  lemma HasJoined(d: Delays, a: Agenda, who: Id)
    requires Cuts(d, a) && !Has(d.current, who) && !Has(d.later, who)
    ensures !Has(a.waiting, who)
  {
    var a0, b0 := Lift(d.current, d.overflows), Lift(d.later, d.overflows + 1);
    forall i | 0 <= i < |a.waiting| ensures a.waiting[i].who != who {
      if i < |a0| {
        assert a.waiting[i] == a0[i];
      } else {
        assert a.waiting[i] == b0[i - |a0|];
      }
    }
  }

  lemma RefreshRefines(d: Delays, a: Agenda)
    requires Refines(d, a)
    ensures Refines(Recompute(d), a)
  {
    hide Lift, Tidy;
    CurrentIsAhead(d, a);
  }

  lemma TimeZero(d: Delays, a: Agenda)
    requires d.overflows == 0 && d.tick == 0 && a.now == 0
    ensures a.now == Abs(d.overflows, d.tick)
  {
  }

  lemma NothingRefines(d: Delays, a: Agenda)
    requires d.tick < N && a.now == Abs(d.overflows, d.tick) && d.tick <= d.nextUnblock <= MAX_DELAY
    requires |d.current| == |d.later| == |a.waiting| == 0
    ensures Refines(d, a)
  {
    hide Lift;
    assert a.waiting == Lift(d.current, d.overflows) + Lift(d.later, d.overflows + 1);
  }

  lemma StepRefines(d: Delays, a: Agenda, e: Event)
    requires Refines(d, a) && Enabled(d, e)
    ensures Refines(Step(d, e).0, AgendaStep(a, e).0)
    ensures Step(d, e).1 == AgendaStep(a, e).1
  {
    hide Tidy, Cuts, Block, BlockUntil, Leave, Forget, Tick, TurnPage;
    match e
    case Blocks(who, w) =>
      HasJoined(d, a, who);
      BlockRefines(d, a, who, w);
    case Leaves(who) => LeaveRefines(d, a, who);
    case Ticks => TickRefines(d, a);
    case Refreshes => RefreshRefines(d, a);
  }

  /** Over every run the wrapped lists time out the same tasks at the same absolute times
      as the agenda, and still are the agenda at the end. */
  lemma {:induction false} RunRefines(d: Delays, a: Agenda, es: seq<Event>)
    requires Refines(d, a) && Possible(d, es)
    ensures Refines(Run(d, es).0, AgendaRun(a, es).0)
    ensures Run(d, es).1 == AgendaRun(a, es).1
    decreases |es|
  {
    if es != [] {
      StepRefines(d, a, es[0]);
      RunRefines(Step(d, es[0]).0, AgendaStep(a, es[0]).0, es[1..]);
    }
  }

  // ---- No task times out early, late or twice ----

  lemma {:induction false} ClockAdvances(a: Agenda, es: seq<Event>)
    ensures a.now <= AgendaRun(a, es).0.now
    decreases |es|
  {
    if es != [] {
      ClockAdvances(AgendaStep(a, es[0]).0, es[1..]);
    }
  }

  /** A waiter stays, its time ahead, unless it leaves or its time has come. */
  lemma StillWaiting(a: Agenda, e: Event, x: Entry)
    requires Tidy(a) && x in a.waiting && a.now < x.value && e != Leaves(x.who)
    ensures var (b, log) := AgendaStep(a, e);
            && (if b.now < x.value then x in b.waiting else x in log && x !in b.waiting)
            && (x in log ==> b.now == x.value)
  {
    hide Separate, Ascending, Values, IndexFrom, Ahead;
    match e
    case Blocks(who, w) => SpliceFacts(a.waiting, InsertPos(Values(a.waiting), a.now + w), Entry(who, a.now + w));
    case Leaves(who) => WithoutMembers(a.waiting, who, x);
    case Ticks =>
      var k := Due(a.waiting, a.now + 1);
      assert a.waiting == a.waiting[..k] + a.waiting[k..];
      hide TurnPage;
      PageSplits(a, k);
      TurnPageKeepsTidy(a);
    case Refreshes =>
  }

  lemma PageSplits(a: Agenda, k: nat)
    requires k == Due(a.waiting, a.now + 1)
    ensures TurnPage(a) == (Agenda(a.now + 1, a.waiting[k..]), a.waiting[..k])
  {
  }

  /** What has timed out does not come back, unless its task waits for 0 ticks. */
  lemma {:induction false} GoneForGood(d: Delays, a: Agenda, es: seq<Event>, x: Entry)
    requires Refines(d, a) && Possible(d, es) && x !in a.waiting && x.value <= a.now && Blocks(x.who, 0) !in es
    ensures x !in AgendaRun(a, es).0.waiting
    decreases |es|
  {
    hide Refines, Step, AgendaStep;
    if es != [] {
      StepRefines(d, a, es[0]);
      StaysGone(a, es[0], x);
      GoneForGood(Step(d, es[0]).0, AgendaStep(a, es[0]).0, es[1..], x);
    }
  }

  lemma StaysGone(a: Agenda, e: Event, x: Entry)
    requires x !in a.waiting && x.value <= a.now && e != Blocks(x.who, 0)
    ensures x !in AgendaStep(a, e).0.waiting && x.value <= AgendaStep(a, e).0.now
  {
    hide Values, IndexFrom;
    match e
    case Blocks(who, w) => SpliceFacts(a.waiting, InsertPos(Values(a.waiting), a.now + w), Entry(who, a.now + w));
    case Leaves(who) => var i := IndexFrom(a.waiting, who, 0);
    case Ticks =>
    case Refreshes =>
  }

  /** Whatever else happens, a task due at absolute time x.value that no event takes off the
      lists waits until exactly then, and has timed out from then on. */
  lemma {:induction false} TimesOutOnTime(d: Delays, a: Agenda, es: seq<Event>, x: Entry)
    requires Refines(d, a) && Possible(d, es)
    requires x in a.waiting && a.now < x.value && Leaves(x.who) !in es && Blocks(x.who, 0) !in es
    ensures var (end, log) := Run(d, es);
            && (x in log <==> x.value <= Abs(end.overflows, end.tick))
            && (x in AgendaRun(a, es).0.waiting <==> Abs(end.overflows, end.tick) < x.value)
    decreases |es|
  {
    hide Tidy, TurnPage, Step, AgendaStep, Lift, Within, HeadTime;
    if es != [] {
      var s, b := Step(d, es[0]), AgendaStep(a, es[0]);
      StepRefines(d, a, es[0]);
      StillWaiting(a, es[0], x);
      RunRefines(s.0, b.0, es[1..]);
      if b.0.now < x.value {
        TimesOutOnTime(s.0, b.0, es[1..], x);
      } else {
        ClockAdvances(b.0, es[1..]);
        GoneForGood(s.0, b.0, es[1..], x);
      }
    }
  }

  // ---- Skipping ticks ----

  function TickMany(d: Delays, n: nat): (r: Delays)
    requires d.tick < N
    ensures r.tick < N
    decreases n
  {
    if n == 0 then d else TickMany(Tick(d).0, n - 1)
  }

  /** Until the cached time nothing happens but counting. */
  lemma {:induction false} QuietTicks(d: Delays, n: nat)
    requires d.tick < N && d.tick + n < N && (n > 0 ==> d.tick + n < d.nextUnblock)
    ensures TickMany(d, n) == d.(tick := d.tick + n)
    decreases n
  {
    if n > 0 {
      QuietTicks(d.(tick := d.tick + 1), n - 1);
    }
  }

  lemma InRange(d: Delays, a: Agenda)
    requires Refines(d, a)
    ensures d.tick < N
  {
  }

  /** Ticks one after another are pages of the agenda. */
  lemma {:induction false} TicksRefine(d: Delays, a: Agenda, n: nat)
    requires Refines(d, a) && d.tick < N
    ensures Refines(TickMany(d, n), Pages(a, n))
    decreases n
  {
    hide Refines, Tick, TurnPage;
    if n > 0 {
      TickRefines(d, a);
      InRange(Tick(d).0, TurnPage(a).0);
      TicksRefine(Tick(d).0, TurnPage(a).0, n - 1);
    }
  }
}
