/**
  Mutexes and priority inheritance (queue.c and the inheritance functions of tasks.c), one
  step for each critical section. A holder inherits the priority of a task that blocks on
  its mutex, one level deep, and gives it up again when it gives back its last mutex or
  when the waiter times out.
*/
module Mutexes {
  import opened Priorities
  import opened Rings
  import opened Wrappers

  type Task = nat
  type Id = nat

  datatype Tcb = Tcb(
    prio: nat,    // uxPriority
    base: nat,    // uxBasePriority
    held: nat,    // uxMutexesHeld
    key: nat,     // xEventListItem.xItemValue
    inUse: bool)  // taskEVENT_LIST_ITEM_VALUE_IN_USE: the value holds event bits

  datatype Mutex = Mutex(
    count: nat,               // uxMessagesWaiting
    holder: Option<Task>,     // xMutexHolder
    waiting: seq<Task>,       // xTasksWaitingToReceive
    recursive: bool,
    depth: nat,               // uxRecursiveCallCount
    joined: set<Task>,        // history: who has blocked on the mutex during this hold
    woken: set<Task>)         // history: who has been woken by a give, and has not tried again since

  datatype World = World(
    tcbs: map<Task, Tcb>,
    mutexes: map<Id, Mutex>,
    inherited: set<Task>)     // tasks whose xInheritanceOccurred is set

  // ---- The inheritance functions of tasks.c, on the holder's record ----

  /** The item value follows a priority unless it is in use for something else. */
  function Rekeyed(t: Tcb, prio: nat): Tcb {
    if t.inUse then t else t.(key := Key(prio))
  }

  /** xTaskPriorityInherit: the holder's new record, and whether it now runs on an inherited priority. */
  function Inherit(holder: Tcb, prio: nat): (Tcb, bool) {
    if holder.prio < prio then (Rekeyed(holder, prio).(prio := prio), true)
    else (holder, holder.base < prio)
  }

  /** xTaskPriorityDisinherit */
  function Disinherit(holder: Tcb): Tcb
    requires holder.held > 0
  {
    var h := holder.(held := holder.held - 1);
    if h.prio != h.base && h.held == 0 then h.(prio := h.base, key := Key(h.base)) else h
  }

  /** vTaskPriorityDisinheritAfterTimeout */
  function DisinheritAfterTimeout(holder: Tcb, highest: nat): Tcb {
    var use := if holder.base < highest then highest else holder.base;
    if holder.prio != use && holder.held == 1 then Rekeyed(holder, use).(prio := use) else holder
  }

  /** vTaskPrioritySet, as far as it concerns priorities. */
  function SetBase(t: Tcb, wanted: nat): Tcb {
    var p := if wanted >= MAX_PRIORITIES then MAX_PRIORITIES - 1 else wanted;
    if t.base == p then t
    else Rekeyed(t, p).(prio := if t.base == t.prio then p else t.prio, base := p)
  }

  // ---- The steps ----

  datatype Step =
    | Take(t: Task, m: Id)              // the critical section of xQueueSemaphoreTake
    | Block(t: Task, m: Id)             // inherit, and join the wait list
    | Expire(t: Task, m: Id, i: nat)    // the wait of t, i-th in line, times out or is aborted
    | Disown(t: Task, m: Id)            // t finds that it has timed out
    | Give(t: Task, m: Id)
    | TakeRecursive(t: Task, m: Id)
    | GiveRecursive(t: Task, m: Id)
    | SetPriority(t: Task, p: nat)
    | AwaitBits(t: Task, value: nat)    // vTaskPlaceOnUnorderedEventList: t waits for an event group
    | ResetItem(t: Task)                // uxTaskResetEventItemValue, when it runs again

  predicate Known(w: World) {
    && (forall m :: m in w.mutexes && w.mutexes[m].holder.Some? ==> w.mutexes[m].holder.value in w.tcbs)
    && (forall m, t :: m in w.mutexes && t in w.mutexes[m].waiting ==> t in w.tcbs)
  }

  function Keys(s: seq<Task>, tcbs: map<Task, Tcb>): (r: seq<nat>)
    ensures |r| == |s|
    ensures forall i :: 0 <= i < |s| && s[i] in tcbs ==> r[i] == tcbs[s[i]].key
  {
    seq(|s|, i requires 0 <= i < |s| => if s[i] in tcbs then tcbs[s[i]].key else 0)
  }

  /** Count 1 and room for one more, so a take succeeds exactly if nobody holds the mutex. */
  function TakeMutex(w: World, t: Task, m: Id, deepen: nat): World
    requires t in w.tcbs && m in w.mutexes
  {
    var x := w.mutexes[m];
    if x.count > 0 then
      w.(tcbs := w.tcbs[t := w.tcbs[t].(held := w.tcbs[t].held + 1)],
         mutexes := w.mutexes[m := x.(count := x.count - 1, holder := Some(t), depth := x.depth + deepen,
                                      joined := {}, woken := x.woken - {t})])
    else w.(mutexes := w.mutexes[m := x.(woken := x.woken - {t})])
  }

  function BlockOn(w: World, t: Task, m: Id): World
    requires Known(w) && t in w.tcbs && m in w.mutexes && w.mutexes[m].holder.Some?
  {
    var h := w.mutexes[m].holder.value;
    var (tcb, occurred) := Inherit(w.tcbs[h], w.tcbs[t].prio);
    var tcbs := w.tcbs[h := tcb];
    var x := w.mutexes[m];
    World(tcbs,
          w.mutexes[m := x.(waiting := Splice(x.waiting, InsertPos(Keys(x.waiting, tcbs), tcbs[t].key), t),
                            joined := x.joined + {t}, woken := x.woken - {t})],
          if occurred then w.inherited + {t} else w.inherited - {t})
  }

  /** prvGetDisinheritPriorityAfterTimeout */
  function HighestWaiting(x: Mutex, tcbs: map<Task, Tcb>): nat {
    if x.waiting == [] || x.waiting[0] !in tcbs then 0 else Key(tcbs[x.waiting[0]].key)
  }

  function DisownMutex(w: World, t: Task, m: Id): World
    requires Known(w) && m in w.mutexes
  {
    var x := w.mutexes[m];
    if x.count == 0 && t in w.inherited && x.holder.Some? then
      var h := x.holder.value;
      w.(tcbs := w.tcbs[h := DisinheritAfterTimeout(w.tcbs[h], HighestWaiting(x, w.tcbs))],
         inherited := w.inherited - {t})
    else w.(inherited := w.inherited - {t})
  }

  /** prvCopyDataToQueue for a mutex, and the wake-up of the first waiter. */
  function GiveMutex(w: World, t: Task, m: Id): World
    requires t in w.tcbs && m in w.mutexes && w.tcbs[t].held > 0
  {
    var x := w.mutexes[m];
    w.(tcbs := w.tcbs[t := Disinherit(w.tcbs[t])],
       mutexes := w.mutexes[m := x.(count := x.count + 1, holder := None,
                                    waiting := if x.waiting == [] then [] else x.waiting[1..],
                                    woken := if x.waiting == [] then x.woken else x.woken + {x.waiting[0]})])
  }

  predicate Holds(w: World, t: Task, m: Id) {
    m in w.mutexes && w.mutexes[m].holder == Some(t)
  }

  predicate Waits(w: World, t: Task) {
    exists m :: m in w.mutexes && t in w.mutexes[m].waiting
  }

  /** A task that runs: it waits for no mutex and for no event group. */
  predicate Runs(w: World, t: Task) {
    !Waits(w, t) && t in w.tcbs && !w.tcbs[t].inUse
  }

  predicate OnMutex(s: Step) {
    !s.SetPriority? && !s.AwaitBits? && !s.ResetItem?
  }

  /** What the calls assert, and what a task that runs can do. */
  ghost predicate Enabled(w: World, s: Step) {
    && Known(w) && s.t in w.tcbs
    && (OnMutex(s) ==> s.m in w.mutexes)
    && match s
       case Take(t, m) => !w.mutexes[m].recursive && Runs(w, t)
       case Block(t, m) => w.mutexes[m].count == 0 && w.mutexes[m].holder.Some? && Runs(w, t) && !Holds(w, t, m)
       case Expire(t, m, i) => i < |w.mutexes[m].waiting| && w.mutexes[m].waiting[i] == t
       case Disown(t, m) => Runs(w, t)
       case Give(t, m) => !w.mutexes[m].recursive && Holds(w, t, m) && w.tcbs[t].held > 0 && Runs(w, t)
       case TakeRecursive(t, m) => w.mutexes[m].recursive && Runs(w, t)
       case GiveRecursive(t, m) =>
         && w.mutexes[m].recursive && Runs(w, t)
         && (Holds(w, t, m) ==> w.tcbs[t].held > 0 && w.mutexes[m].depth > 0)
       case SetPriority(t, p) => true
       case AwaitBits(t, value) => Runs(w, t)
       case ResetItem(t) => !Waits(w, t)
  }

  function Next(w: World, s: Step): World
    requires Known(w) && s.t in w.tcbs && (OnMutex(s) ==> s.m in w.mutexes)
    requires s.Block? ==> w.mutexes[s.m].holder.Some?
    requires s.Expire? ==> s.i < |w.mutexes[s.m].waiting|
    requires s.Give? ==> w.tcbs[s.t].held > 0
    requires s.GiveRecursive? && Holds(w, s.t, s.m) ==> w.tcbs[s.t].held > 0 && w.mutexes[s.m].depth > 0
  {
    match s
    case Take(t, m) => TakeMutex(w, t, m, 0)
    case Block(t, m) => BlockOn(w, t, m)
    case Expire(t, m, i) => w.(mutexes := w.mutexes[m := w.mutexes[m].(waiting := Cut(w.mutexes[m].waiting, i))])
    case Disown(t, m) => DisownMutex(w, t, m)
    case Give(t, m) => GiveMutex(w, t, m)
    case TakeRecursive(t, m) =>
      if Holds(w, t, m) then w.(mutexes := w.mutexes[m := w.mutexes[m].(depth := w.mutexes[m].depth + 1)])
      else TakeMutex(w, t, m, 1)
    case GiveRecursive(t, m) =>
      if Holds(w, t, m) then
        var v := w.(mutexes := w.mutexes[m := w.mutexes[m].(depth := w.mutexes[m].depth - 1)]);
        if v.mutexes[m].depth == 0 then GiveMutex(v, t, m) else v
      else w
    case SetPriority(t, p) => w.(tcbs := w.tcbs[t := SetBase(w.tcbs[t], p)])
    case AwaitBits(t, value) => w.(tcbs := w.tcbs[t := w.tcbs[t].(key := value, inUse := true)])
    case ResetItem(t) => w.(tcbs := w.tcbs[t := w.tcbs[t].(key := Key(w.tcbs[t].prio), inUse := false)])
  }

  // ---- Conservation ----

  function HeldBy(mutexes: map<Id, Mutex>, t: Task): set<Id> {
    set m | m in mutexes && mutexes[m].holder == Some(t)
  }

  ghost predicate Sound(x: Mutex) {
    && x.count == (if x.holder == None then 1 else 0)
    && (x.recursive ==> (x.depth > 0 <==> x.holder.Some?))
    && (!x.recursive ==> x.depth == 0)
  }

  /** The counts in the task records are the mutexes that name the task, and a task that
      holds none runs at its base priority. */
  ghost predicate Conserved(w: World) {
    && Known(w)
    && (forall m :: m in w.mutexes ==> Sound(w.mutexes[m]))
    && (forall t :: t in w.tcbs ==> w.tcbs[t].held == |HeldBy(w.mutexes, t)|)
    && (forall t :: t in w.tcbs && w.tcbs[t].held == 0 ==> w.tcbs[t].prio == w.tcbs[t].base)
  }

  /** Changing one mutex changes what its old and its new holder hold, and nothing else. */
  lemma HeldByAfter(mutexes: map<Id, Mutex>, m: Id, x: Mutex, t: Task)
    requires m in mutexes
    ensures var was, now := HeldBy(mutexes, t), HeldBy(mutexes[m := x], t);
            now == (if x.holder == Some(t) then was + {m} else was - {m})
  {
  }

  lemma HeldCount(mutexes: map<Id, Mutex>, m: Id, x: Mutex, t: Task)
    requires m in mutexes
    ensures var was, now := |HeldBy(mutexes, t)|, |HeldBy(mutexes[m := x], t)|;
            var had, has := mutexes[m].holder == Some(t), x.holder == Some(t);
            now == was + (if has && !had then 1 else if had && !has then -1 else 0)
  {
    hide HeldBy;
    HeldByAfter(mutexes, m, x, t);
    HeldByHas(mutexes, t, m);
    OneMore(HeldBy(mutexes, t), m);
  }

  lemma HeldByHas(mutexes: map<Id, Mutex>, t: Task, m: Id)
    requires m in mutexes
    ensures m in HeldBy(mutexes, t) <==> mutexes[m].holder == Some(t)
  {
  }

  lemma OneMore(s: set<Id>, m: Id)
    ensures |s + {m}| == if m in s then |s| else |s| + 1
    ensures |s - {m}| == if m in s then |s| - 1 else |s|
  {
    if m in s {
      assert s + {m} == s;
    } else {
      assert s - {m} == s;
    }
  }

  ghost predicate Fits(x: Mutex, tcbs: map<Task, Tcb>) {
    && (x.holder.Some? ==> x.holder.value in tcbs)
    && (forall t :: t in x.waiting ==> t in tcbs)
  }

  /** A step that changes one mutex and one task record keeps the counts, if it does for that task. */
  lemma UpdateConserves(w: World, t: Task, tcb: Tcb, m: Id, x: Mutex, inherited: set<Task>)
    requires Conserved(w) && t in w.tcbs && m in w.mutexes
    requires Sound(x) && Fits(x, w.tcbs)
    requires forall u :: u != t ==> (x.holder == Some(u) <==> w.mutexes[m].holder == Some(u))
    requires tcb.held == |HeldBy(w.mutexes[m := x], t)| && (tcb.held == 0 ==> tcb.prio == tcb.base)
    ensures Conserved(World(w.tcbs[t := tcb], w.mutexes[m := x], inherited))
  {
    hide HeldBy;
    forall u | u in w.tcbs && u != t ensures |HeldBy(w.mutexes[m := x], u)| == |HeldBy(w.mutexes, u)| {
      HeldCount(w.mutexes, m, x, u);
    }
  }

  lemma ConservedAt(w: World, m: Id)
    requires Conserved(w) && m in w.mutexes
    ensures Known(w) && Sound(w.mutexes[m]) && Fits(w.mutexes[m], w.tcbs)
  {
  }

  lemma ConservedOf(w: World, t: Task)
    requires Conserved(w) && t in w.tcbs
    ensures w.tcbs[t].held == |HeldBy(w.mutexes, t)|
    ensures w.tcbs[t].held == 0 ==> w.tcbs[t].prio == w.tcbs[t].base
  {
  }

  lemma TakeConserves(w: World, t: Task, m: Id, deepen: nat)
    requires Conserved(w) && t in w.tcbs && m in w.mutexes
    requires deepen == if w.mutexes[m].recursive then 1 else 0
    ensures Conserved(TakeMutex(w, t, m, deepen))
  {
    hide Conserved, HeldBy;
    ConservedAt(w, m);
    ConservedOf(w, t);
    var x := w.mutexes[m];
    if x.count > 0 {
      var y := x.(count := x.count - 1, holder := Some(t), depth := x.depth + deepen, joined := {}, woken := x.woken - {t});
      HeldCount(w.mutexes, m, y, t);
      UpdateConserves(w, t, w.tcbs[t].(held := w.tcbs[t].held + 1), m, y, w.inherited);
    } else {
      var y := x.(woken := x.woken - {t});
      SameHolder(w, m, y);
      UpdateConserves(w, t, w.tcbs[t], m, y, w.inherited);
      assert w.tcbs[t := w.tcbs[t]] == w.tcbs;
    }
  }

  lemma GiveConserves(w: World, t: Task, m: Id, depth: nat)
    requires Conserved(w) && t in w.tcbs && Holds(w, t, m) && w.tcbs[t].held > 0
    requires w.mutexes[m].recursive <==> depth == 1
    ensures Conserved(GiveMutex(w.(mutexes := w.mutexes[m := w.mutexes[m].(depth := 0)]), t, m))
  {
    hide Conserved, HeldBy;
    ConservedAt(w, m);
    ConservedOf(w, t);
    var x := w.mutexes[m];
    var y := x.(count := x.count + 1, holder := None, depth := 0,
                waiting := if x.waiting == [] then [] else x.waiting[1..],
                woken := if x.waiting == [] then x.woken else x.woken + {x.waiting[0]});
    HeldCount(w.mutexes, m, y, t);
    UpdateConserves(w, t, Disinherit(w.tcbs[t]), m, y, w.inherited);
    var v := w.(mutexes := w.mutexes[m := x.(depth := 0)]);
    assert v.mutexes[m := y] == w.mutexes[m := y];
  }

  lemma SameHolder(w: World, m: Id, x: Mutex)
    requires m in w.mutexes && x.holder == w.mutexes[m].holder
    ensures forall t :: HeldBy(w.mutexes[m := x], t) == HeldBy(w.mutexes, t)
  {
  }

  lemma HolderHasIt(w: World, t: Task, m: Id)
    requires Conserved(w) && t in w.tcbs && Holds(w, t, m)
    ensures m in HeldBy(w.mutexes, t) && w.tcbs[t].held > 0
  {
    assert m in HeldBy(w.mutexes, t);
  }

  lemma BlockConserves(w: World, t: Task, m: Id)
    requires Conserved(w) && Enabled(w, Block(t, m))
    ensures Conserved(BlockOn(w, t, m))
  {
    hide Conserved, HeldBy, Splice, InsertPos, Keys, Waits;
    var x, h := w.mutexes[m], w.mutexes[m].holder.value;
    ConservedAt(w, m);
    ConservedOf(w, h);
    HolderHasIt(w, h, m);
    var v := BlockOn(w, t, m);
    SpliceFacts(x.waiting, InsertPos(Keys(x.waiting, v.tcbs), v.tcbs[t].key), t);
    SameHolder(w, m, v.mutexes[m]);
    UpdateConserves(w, h, v.tcbs[h], m, v.mutexes[m], v.inherited);
  }

  lemma ExpireConserves(w: World, t: Task, m: Id, i: nat)
    requires Conserved(w) && Enabled(w, Expire(t, m, i))
    ensures Conserved(Next(w, Expire(t, m, i)))
  {
    hide Conserved, HeldBy, Cut;
    ConservedAt(w, m);
    ConservedOf(w, t);
    var y := w.mutexes[m].(waiting := Cut(w.mutexes[m].waiting, i));
    CutFacts(w.mutexes[m].waiting, i);
    SameHolder(w, m, y);
    UpdateConserves(w, t, w.tcbs[t], m, y, w.inherited);
    assert w.tcbs[t := w.tcbs[t]] == w.tcbs;
  }

  lemma DisownConserves(w: World, t: Task, m: Id)
    requires Conserved(w) && Enabled(w, Disown(t, m))
    ensures Conserved(DisownMutex(w, t, m))
  {
    hide HeldBy, HighestWaiting, Waits;
    var x := w.mutexes[m];
    if x.count == 0 && t in w.inherited && x.holder.Some? {
      hide Conserved;
      var h := x.holder.value;
      ConservedAt(w, m);
      ConservedOf(w, h);
      HolderHasIt(w, h, m);
      SameHolder(w, m, x);
      UpdateConserves(w, h, DisinheritAfterTimeout(w.tcbs[h], HighestWaiting(x, w.tcbs)), m, x, w.inherited - {t});
      assert w.mutexes[m := x] == w.mutexes;
    }
  }

  lemma DeeperConserves(w: World, t: Task, m: Id, depth: nat)
    requires Conserved(w) && t in w.tcbs && Holds(w, t, m) && w.mutexes[m].recursive && depth > 0
    ensures Conserved(w.(mutexes := w.mutexes[m := w.mutexes[m].(depth := depth)]))
  {
    hide Conserved, HeldBy;
    ConservedAt(w, m);
    ConservedOf(w, t);
    var y := w.mutexes[m].(depth := depth);
    SameHolder(w, m, y);
    UpdateConserves(w, t, w.tcbs[t], m, y, w.inherited);
    assert w.tcbs[t := w.tcbs[t]] == w.tcbs;
  }

  /** The assertions about held counts and the recursive count never fire. */
  lemma AssertionsHold(w: World, t: Task, m: Id)
    requires Conserved(w) && t in w.tcbs && Holds(w, t, m)
    ensures w.tcbs[t].held > 0 && w.mutexes[m].count == 0
    ensures w.mutexes[m].recursive ==> w.mutexes[m].depth > 0
  {
    assert m in HeldBy(w.mutexes, t);
  }

  /** Every take, give, wait, timeout and priority change keeps the counts exact, gives a mutex
      count 0 exactly while it has a holder, and leaves a task that holds none at its base priority. */
  lemma NextConserves(w: World, s: Step)
    requires Conserved(w) && Enabled(w, s)
    ensures Conserved(Next(w, s))
  {
    hide Conserved, HeldBy;
    match s
    case Take(t, m) => TakeConserves(w, t, m, 0);
    case Block(t, m) => BlockConserves(w, t, m);
    case Expire(t, m, i) => ExpireConserves(w, t, m, i);
    case Disown(t, m) => DisownConserves(w, t, m);
    case Give(t, m) => GivePlainConserves(w, t, m);
    case TakeRecursive(t, m) =>
      if Holds(w, t, m) {
        DeeperConserves(w, t, m, w.mutexes[m].depth + 1);
      } else {
        TakeConserves(w, t, m, 1);
      }
    case GiveRecursive(t, m) =>
      if Holds(w, t, m) {
        if w.mutexes[m].depth == 1 {
          GiveConserves(w, t, m, 1);
        } else {
          DeeperConserves(w, t, m, w.mutexes[m].depth - 1);
        }
      }
    case SetPriority(t, p) => SetPriorityConserves(w, t, p);
    case AwaitBits(t, value) => ItemConserves(w, t, value, true);
    case ResetItem(t) => ItemConserves(w, t, Key(w.tcbs[t].prio), false);
  }

  /** What is in the event list item is no matter of mutexes held. */
  lemma ItemConserves(w: World, t: Task, value: nat, inUse: bool)
    requires Conserved(w) && t in w.tcbs
    ensures Conserved(w.(tcbs := w.tcbs[t := w.tcbs[t].(key := value, inUse := inUse)]))
  {
    hide HeldBy, Sound;
  }

  lemma GivePlainConserves(w: World, t: Task, m: Id)
    requires Conserved(w) && Enabled(w, Give(t, m))
    ensures Conserved(GiveMutex(w, t, m))
  {
    assert w.mutexes[m].(depth := 0) == w.mutexes[m];
    assert w.mutexes[m := w.mutexes[m]] == w.mutexes;
    GiveConserves(w, t, m, 0);
  }

  lemma SetPriorityConserves(w: World, t: Task, p: nat)
    requires Conserved(w) && t in w.tcbs
    ensures Conserved(w.(tcbs := w.tcbs[t := SetBase(w.tcbs[t], p)]))
  {
  }

  ghost predicate Possible(w: World, steps: seq<Step>)
    decreases |steps|
  {
    steps == [] || (Enabled(w, steps[0]) && Possible(Next(w, steps[0]), steps[1..]))
  }

  ghost function Run(w: World, steps: seq<Step>): World
    requires Possible(w, steps)
    decreases |steps|
  {
    if steps == [] then w else Run(Next(w, steps[0]), steps[1..])
  }

  /** Mutex conservation over whole runs. */
  lemma {:induction false} RunConserves(w: World, steps: seq<Step>)
    requires Conserved(w) && Possible(w, steps)
    ensures Conserved(Run(w, steps))
    decreases |steps|
  {
    if steps != [] {
      NextConserves(w, steps[0]);
      RunConserves(Next(w, steps[0]), steps[1..]);
    }
  }

  // ---- Recursive mutexes ----

  /** What a step adds to the nesting of a recursive mutex. */
  function Nesting(w: World, s: Step, m: Id): int
    requires m in w.mutexes
  {
    if s.TakeRecursive? && s.m == m && (Holds(w, s.t, m) || w.mutexes[m].count > 0) then 1
    else if s.GiveRecursive? && s.m == m && Holds(w, s.t, m) then -1
    else 0
  }

  lemma StepNests(w: World, s: Step, m: Id)
    requires Conserved(w) && Enabled(w, s) && m in w.mutexes && w.mutexes[m].recursive
    ensures var v := Next(w, s);
            && m in v.mutexes && v.mutexes[m].recursive
            && v.mutexes[m].depth == w.mutexes[m].depth + Nesting(w, s, m)
            && (v.mutexes[m].depth > 0 && w.mutexes[m].holder.Some? ==> v.mutexes[m].holder == w.mutexes[m].holder)
  {
    hide HeldBy, Conserved, Waits, Splice, InsertPos, Keys, Cut, Inherit, HighestWaiting;
    ConservedAt(w, m);
  }

  ghost function Balance(w: World, steps: seq<Step>, m: Id): int
    requires Possible(w, steps) && Conserved(w) && m in w.mutexes && w.mutexes[m].recursive
    decreases |steps|
  {
    if steps == [] then 0
    else
      NextConserves(w, steps[0]);
      StepNests(w, steps[0], m);
      Nesting(w, steps[0], m) + Balance(Next(w, steps[0]), steps[1..], m)
  }

  ghost predicate NeverBalanced(w: World, steps: seq<Step>, m: Id)
    requires Possible(w, steps)
    decreases |steps|
  {
    && m in w.mutexes && w.mutexes[m].depth > 0
    && (steps != [] ==> NeverBalanced(Next(w, steps[0]), steps[1..], m))
  }

  /** A recursive mutex is held as deep as its takes exceed its gives, and it stays with its
      holder until the give that balances the first take. */
  lemma {:induction false} ReleasedByTheBalancingGive(w: World, steps: seq<Step>, m: Id)
    requires Conserved(w) && Possible(w, steps) && m in w.mutexes && w.mutexes[m].recursive
    ensures var v := Run(w, steps);
            && m in v.mutexes
            && v.mutexes[m].depth == w.mutexes[m].depth + Balance(w, steps, m)
            && (v.mutexes[m].holder == None <==> w.mutexes[m].depth + Balance(w, steps, m) == 0)
            && (NeverBalanced(w, steps, m) ==> v.mutexes[m].holder == w.mutexes[m].holder)
    decreases |steps|
  {
    if steps != [] {
      NextConserves(w, steps[0]);
      StepNests(w, steps[0], m);
      var v := Next(w, steps[0]);
      ReleasedByTheBalancingGive(v, steps[1..], m);
      assert NeverBalanced(w, steps, m) ==> NeverBalanced(v, steps[1..], m) && v.mutexes[m].depth > 0;
    }
  }

  // ---- The holder's priority ----

  /** The setting of the claim: base priorities stay, and a task does not wait for a mutex while it
      holds one. It may hold any number, and wait for event groups while it does. */
  ghost predicate Plain(w: World, s: Step) {
    && s.t in w.tcbs && !s.SetPriority?
    && (s.Block? ==> w.tcbs[s.t].held == 0)
  }

  /** Waiters hold nothing, and stand in the order of their priorities. */
  ghost predicate Queued(x: Mutex, tcbs: map<Task, Tcb>) {
    && (forall t :: t in x.waiting ==> t in tcbs && tcbs[t].held == 0 && !tcbs[t].inUse)
    && Sorted(Keys(x.waiting, tcbs))
  }

  /** The holder runs at least at its base priority and at that of every task that has blocked
      on the mutex during this hold and still waits. */
  ghost predicate Raised(x: Mutex, tcbs: map<Task, Tcb>) {
    x.holder.Some? && x.holder.value in tcbs ==>
      && tcbs[x.holder.value].base <= tcbs[x.holder.value].prio
      && forall t :: t in x.waiting && t in x.joined && t in tcbs ==> tcbs[t].prio <= tcbs[x.holder.value].prio
  }

  ghost predicate Usual(t: Tcb) {
    t.base <= t.prio < MAX_PRIORITIES && (!t.inUse ==> t.key == Key(t.prio))
  }

  ghost predicate Safe(w: World) {
    && Conserved(w)
    && (forall t :: t in w.tcbs ==> Usual(w.tcbs[t]))
    && (forall m :: m in w.mutexes ==> Queued(w.mutexes[m], w.tcbs) && Raised(w.mutexes[m], w.tcbs))
  }

  /** A task that holds one mutex holds no other. */
  lemma HoldsOnly(w: World, t: Task, m: Id, n: Id)
    requires Conserved(w) && t in w.tcbs && Holds(w, t, m) && Holds(w, t, n) && w.tcbs[t].held == 1
    ensures m == n
  {
    var s := HeldBy(w.mutexes, t);
    assert m in s && n in s;
    if m != n {
      TwoMembers(s, m, n);
    }
  }

  lemma TwoMembers(s: set<Id>, m: Id, n: Id)
    requires m in s && n in s && m != n
    ensures |s| >= 2
  {
    assert n in s - {m};
    assert |s - {m}| == |s| - 1;
  }

  lemma HoldsNone(w: World, t: Task, m: Id)
    requires Conserved(w) && t in w.tcbs && w.tcbs[t].held == 0
    ensures !Holds(w, t, m)
  {
    assert Holds(w, t, m) ==> m in HeldBy(w.mutexes, t);
  }

  lemma OtherMutexStaysSafe(x: Mutex, tcbs: map<Task, Tcb>, u: Task, tcb: Tcb)
    requires Queued(x, tcbs) && Raised(x, tcbs) && u in tcbs && u !in x.waiting
    requires x.holder == Some(u) ==> tcb.base == tcbs[u].base && tcb.prio >= tcbs[u].prio
    ensures Queued(x, tcbs[u := tcb]) && Raised(x, tcbs[u := tcb])
  {
    KeysFrame(x.waiting, tcbs, u, tcb);
  }

  lemma KeysFrame(s: seq<Task>, tcbs: map<Task, Tcb>, u: Task, tcb: Tcb)
    requires u !in s
    ensures Keys(s, tcbs[u := tcb]) == Keys(s, tcbs)
  {
  }

  /** A step that changes one mutex, and the record of a task that does not wait, is safe if it
      leaves that mutex safe, and the task its priority if it holds another one. */
  lemma UpdateSafe(w: World, u: Task, tcb: Tcb, m: Id, x: Mutex, inherited: set<Task>)
    requires Safe(w) && u in w.tcbs && m in w.mutexes && Usual(tcb)
    requires forall n :: n in w.mutexes ==> u !in w.mutexes[n].waiting
    requires forall n :: n in w.mutexes && n != m && w.mutexes[n].holder == Some(u) ==>
               tcb.base == w.tcbs[u].base && tcb.prio >= w.tcbs[u].prio
    requires Queued(x, w.tcbs[u := tcb]) && Raised(x, w.tcbs[u := tcb])
    requires Conserved(World(w.tcbs[u := tcb], w.mutexes[m := x], inherited))
    ensures Safe(World(w.tcbs[u := tcb], w.mutexes[m := x], inherited))
  {
    hide Conserved, Queued, Raised, Usual;
    forall n | n in w.mutexes && n != m
      ensures Queued(w.mutexes[n], w.tcbs[u := tcb]) && Raised(w.mutexes[n], w.tcbs[u := tcb])
    {
      OtherMutexStaysSafe(w.mutexes[n], w.tcbs, u, tcb);
    }
  }

  /** A holder does not wait, and if it holds one mutex it holds nothing else. */
  lemma HolderIsFree(w: World, h: Task, m: Id)
    requires Safe(w) && h in w.tcbs && Holds(w, h, m)
    ensures w.tcbs[h].held > 0
    ensures forall n :: n in w.mutexes ==> h !in w.mutexes[n].waiting
    ensures w.tcbs[h].held == 1 ==> forall n :: n in w.mutexes && n != m ==> w.mutexes[n].holder != Some(h)
  {
    AssertionsHold(w, h, m);
    forall n | w.tcbs[h].held == 1 && n in w.mutexes && n != m ensures w.mutexes[n].holder != Some(h) {
      if w.mutexes[n].holder == Some(h) {
        HoldsOnly(w, h, m, n);
      }
    }
  }

  lemma TakeSafe(w: World, t: Task, m: Id, deepen: nat)
    requires Safe(w) && t in w.tcbs && m in w.mutexes && !Waits(w, t)
    requires deepen == if w.mutexes[m].recursive then 1 else 0
    ensures Safe(TakeMutex(w, t, m, deepen))
  {
    hide Conserved, Queued, Raised, Usual, HeldBy;
    TakeConserves(w, t, m, deepen);
    var x, y := w.mutexes[m], TakeMutex(w, t, m, deepen).mutexes[m];
    var tcb := TakeMutex(w, t, m, deepen).tcbs[t];
    TakenIsSafe(w, t, m, deepen);
    UpdateSafe(w, t, tcb, m, y, w.inherited);
  }

  lemma TakenIsSafe(w: World, t: Task, m: Id, deepen: nat)
    requires Safe(w) && t in w.tcbs && m in w.mutexes && !Waits(w, t)
    ensures var v := TakeMutex(w, t, m, deepen);
            && t in v.tcbs && m in v.mutexes && Usual(v.tcbs[t])
            && v == World(w.tcbs[t := v.tcbs[t]], w.mutexes[m := v.mutexes[m]], w.inherited)
            && v.tcbs[t].base == w.tcbs[t].base && v.tcbs[t].prio == w.tcbs[t].prio
            && Queued(v.mutexes[m], v.tcbs) && Raised(v.mutexes[m], v.tcbs)
  {
    hide Conserved, Keys, Sorted, HeldBy;
    var v := TakeMutex(w, t, m, deepen);
    KeysFrame(w.mutexes[m].waiting, w.tcbs, t, v.tcbs[t]);
    assert w.tcbs[t := w.tcbs[t]] == w.tcbs;
  }

  /** Giving leaves the mutex without a holder and without its first waiter. */
  lemma GiveSafe(w: World, t: Task, m: Id, y: Mutex)
    requires Safe(w) && t in w.tcbs && Holds(w, t, m) && w.tcbs[t].held > 0
    requires y.holder == None && y.waiting == if w.mutexes[m].waiting == [] then [] else w.mutexes[m].waiting[1..]
    requires Conserved(World(w.tcbs[t := Disinherit(w.tcbs[t])], w.mutexes[m := y], w.inherited))
    ensures Safe(World(w.tcbs[t := Disinherit(w.tcbs[t])], w.mutexes[m := y], w.inherited))
  {
    hide Keys, Sorted;
    HolderIsFree(w, t, m);
    var tcb := Disinherit(w.tcbs[t]);
    KeysFrame(y.waiting, w.tcbs, t, tcb);
    TailIsSorted(w.mutexes[m].waiting, w.tcbs);
    hide Conserved;
    UpdateSafe(w, t, tcb, m, y, w.inherited);
  }

  lemma TailIsSorted(s: seq<Task>, tcbs: map<Task, Tcb>)
    requires Sorted(Keys(s, tcbs)) && forall t :: t in s ==> t in tcbs
    ensures s != [] ==> Sorted(Keys(s[1..], tcbs))
  {
    if s != [] {
      var k := Keys(s[1..], tcbs);
      assert forall i :: 0 <= i < |k| ==> k[i] == Keys(s, tcbs)[i + 1];
    }
  }

  lemma BlockQueued(x: Mutex, t: Task, tcbs: map<Task, Tcb>)
    requires Queued(x, tcbs) && t in tcbs && tcbs[t].held == 0 && !tcbs[t].inUse
    ensures var p := InsertPos(Keys(x.waiting, tcbs), tcbs[t].key);
            Queued(x.(waiting := Splice(x.waiting, p, t), joined := x.joined + {t}, woken := x.woken - {t}), tcbs)
  {
    hide Keys, Splice, InsertPos, Sorted;
    var p := InsertPos(Keys(x.waiting, tcbs), tcbs[t].key);
    SpliceFacts(x.waiting, p, t);
    InsertPosKeepsSorted(Keys(x.waiting, tcbs), tcbs[t].key);
    KeysOfSplice(x.waiting, tcbs, p, t);
  }

  lemma KeysOfSplice(s: seq<Task>, tcbs: map<Task, Tcb>, p: nat, t: Task)
    requires p <= |s| && t in tcbs
    ensures Keys(Splice(s, p, t), tcbs) == Splice(Keys(s, tcbs), p, tcbs[t].key)
  {
  }

  lemma BlockSafe(w: World, t: Task, m: Id)
    requires Safe(w) && Enabled(w, Block(t, m)) && w.tcbs[t].held == 0
    ensures Safe(BlockOn(w, t, m))
  {
    hide Conserved, Splice, InsertPos, Keys, Sorted;
    BlockConserves(w, t, m);
    KnownHolder(w, m);
    var x, h := w.mutexes[m], w.mutexes[m].holder.value;
    var v := BlockOn(w, t, m);
    HolderIsFree(w, h, m);
    KeysFrame(x.waiting, w.tcbs, h, v.tcbs[h]);
    BlockQueued(x, t, v.tcbs);
    SpliceFacts(x.waiting, InsertPos(Keys(x.waiting, v.tcbs), v.tcbs[t].key), t);
    UpdateSafe(w, h, v.tcbs[h], m, v.mutexes[m], v.inherited);
  }

  lemma ExpireSafe(w: World, t: Task, m: Id, i: nat)
    requires Safe(w) && Enabled(w, Expire(t, m, i))
    ensures Safe(Next(w, Expire(t, m, i)))
  {
    hide Conserved, Queued, Usual;
    ExpireConserves(w, t, m, i);
    CutQueued(w.mutexes[m], w.tcbs, i);
    CutFacts(w.mutexes[m].waiting, i);
  }

  lemma CutQueued(x: Mutex, tcbs: map<Task, Tcb>, i: nat)
    requires Queued(x, tcbs) && i < |x.waiting|
    ensures Queued(x.(waiting := Cut(x.waiting, i)), tcbs)
  {
    hide Cut, Sorted, Keys;
    CutFacts(x.waiting, i);
    KeysOfCut(x.waiting, tcbs, i);
    CutIsSorted(Keys(x.waiting, tcbs), i);
  }

  lemma KeysOfCut(s: seq<Task>, tcbs: map<Task, Tcb>, i: nat)
    requires i < |s|
    ensures Keys(Cut(s, i), tcbs) == Cut(Keys(s, tcbs), i)
  {
  }

  lemma CutIsSorted(k: seq<nat>, i: nat)
    requires i < |k| && Sorted(k)
    ensures Sorted(Cut(k, i))
  {
  }

  /** The first waiter has the highest priority of all. */
  lemma FirstIsHighest(x: Mutex, tcbs: map<Task, Tcb>, t: Task)
    requires Queued(x, tcbs) && (forall u :: u in tcbs ==> Usual(tcbs[u])) && t in x.waiting
    ensures tcbs[t].prio <= HighestWaiting(x, tcbs) < MAX_PRIORITIES
  {
    var i :| 0 <= i < |x.waiting| && x.waiting[i] == t;
    assert Keys(x.waiting, tcbs)[0] <= Keys(x.waiting, tcbs)[i];
  }

  lemma HighestIsUsual(x: Mutex, tcbs: map<Task, Tcb>)
    requires Queued(x, tcbs) && (forall u :: u in tcbs ==> Usual(tcbs[u]))
    ensures HighestWaiting(x, tcbs) < MAX_PRIORITIES
  {
    if x.waiting != [] {
      FirstIsHighest(x, tcbs, x.waiting[0]);
    }
  }

  lemma KnownHolder(w: World, m: Id)
    requires Conserved(w) && m in w.mutexes && w.mutexes[m].holder.Some?
    ensures w.mutexes[m].holder.value in w.tcbs && Known(w)
  {
  }

  lemma DisownSafe(w: World, t: Task, m: Id)
    requires Safe(w) && Enabled(w, Disown(t, m))
    ensures Safe(DisownMutex(w, t, m))
  {
    hide Conserved, Keys, Sorted, HighestWaiting;
    DisownConserves(w, t, m);
    var x := w.mutexes[m];
    if x.count == 0 && t in w.inherited && x.holder.Some? {
      var h := x.holder.value;
      KnownHolder(w, m);
      HolderIsFree(w, h, m);
      forall u | u in x.waiting ensures w.tcbs[u].prio <= HighestWaiting(x, w.tcbs) < MAX_PRIORITIES {
        FirstIsHighest(x, w.tcbs, u);
      }
      HighestIsUsual(x, w.tcbs);
      var tcb := DisinheritAfterTimeout(w.tcbs[h], HighestWaiting(x, w.tcbs));
      KeysFrame(x.waiting, w.tcbs, h, tcb);
      assert w.mutexes[m := x] == w.mutexes;
      UpdateSafe(w, h, tcb, m, x, w.inherited - {t});
    }
  }

  /** After a timeout a holder of this mutex alone is left at exactly the higher of its base
      priority and the highest priority that still waits, if the task that timed out had raised
      it; otherwise, and with several mutexes, it keeps its priority. */
  lemma DisownIsExact(w: World, t: Task, m: Id)
    requires Safe(w) && Enabled(w, Disown(t, m))
    ensures var v := DisownMutex(w, t, m);
            && v.mutexes == w.mutexes && v.inherited == w.inherited - {t}
            && (t !in w.inherited || w.mutexes[m].holder == None ==> v.tcbs == w.tcbs)
    ensures t in w.inherited && w.mutexes[m].holder.Some? ==>
              var v, h := DisownMutex(w, t, m), w.mutexes[m].holder.value;
              && h in v.tcbs && h in w.tcbs && v.tcbs[h].base == w.tcbs[h].base
              && (w.tcbs[h].held != 1 ==> v.tcbs[h] == w.tcbs[h])
              && (w.tcbs[h].held == 1 ==>
                    && (forall u :: u in w.mutexes[m].waiting ==> u in v.tcbs && v.tcbs[u].prio <= v.tcbs[h].prio)
                    && (v.tcbs[h].prio == v.tcbs[h].base ||
                        exists u :: u in w.mutexes[m].waiting && u in v.tcbs && v.tcbs[u].prio == v.tcbs[h].prio))
  {
    hide Conserved, Keys, Sorted, Waits, Key, HighestWaiting, Raised;
    var x := w.mutexes[m];
    if t in w.inherited && x.holder.Some? {
      var h := x.holder.value;
      KnownHolder(w, m);
      HolderIsFree(w, h, m);
      AssertionsHold(w, h, m);
      forall u | u in x.waiting ensures w.tcbs[u].prio <= HighestWaiting(x, w.tcbs) {
        FirstIsHighest(x, w.tcbs, u);
      }
      HighestIsFirst(x, w.tcbs);
      assert x.waiting != [] ==> x.waiting[0] in x.waiting;
    }
  }

  /** The priority read off the head of the wait list is that of the first waiter, or 0. */
  lemma HighestIsFirst(x: Mutex, tcbs: map<Task, Tcb>)
    requires Queued(x, tcbs) && (forall u :: u in tcbs ==> Usual(tcbs[u]))
    ensures HighestWaiting(x, tcbs) == if x.waiting == [] then 0 else tcbs[x.waiting[0]].prio
  {
    hide Keys, Sorted;
    assert x.waiting != [] ==> x.waiting[0] in x.waiting;
  }

  /** A task that blocks lifts the holder to its own priority at least, and remembers to take
      the priority back exactly if the holder's base priority is below its own. */
  lemma BlockRaises(w: World, t: Task, m: Id)
    requires Enabled(w, Block(t, m))
    ensures var v, h := BlockOn(w, t, m), w.mutexes[m].holder.value;
            && t in v.tcbs && h in v.tcbs && v.tcbs[t] == w.tcbs[t] && v.tcbs[h].base == w.tcbs[h].base
            && v.tcbs[h].prio == (if w.tcbs[h].prio < w.tcbs[t].prio then w.tcbs[t].prio else w.tcbs[h].prio)
            && (w.tcbs[h].base <= w.tcbs[h].prio ==> (t in v.inherited <==> w.tcbs[h].base < w.tcbs[t].prio))
  {
    hide Keys, InsertPos, Splice;
  }

  /** With every mutex free and every task at its base priority, all claims hold to begin with. */
  lemma FreshIsSafe(w: World)
    requires forall m :: m in w.mutexes ==> w.mutexes[m] == Mutex(1, None, [], w.mutexes[m].recursive, 0, {}, {})
    requires forall t :: t in w.tcbs ==>
               && w.tcbs[t].base < MAX_PRIORITIES
               && w.tcbs[t] == Tcb(w.tcbs[t].base, w.tcbs[t].base, 0, Key(w.tcbs[t].base), false)
    ensures Safe(w)
  {
    forall t ensures HeldBy(w.mutexes, t) == {} {
    }
  }

  lemma DepthSafe(w: World, m: Id, depth: nat)
    requires Safe(w) && m in w.mutexes
    requires Conserved(w.(mutexes := w.mutexes[m := w.mutexes[m].(depth := depth)]))
    ensures Safe(w.(mutexes := w.mutexes[m := w.mutexes[m].(depth := depth)]))
  {
    hide Conserved;
  }

  lemma NextSafe(w: World, s: Step)
    requires Safe(w) && Enabled(w, s) && Plain(w, s)
    ensures Safe(Next(w, s))
  {
    hide Safe, Conserved;
    SafeIsConserved(w);
    NextConserves(w, s);
    match s
    case Take(t, m) => TakeSafe(w, t, m, 0);
    case Block(t, m) => BlockSafe(w, t, m);
    case Expire(t, m, i) => ExpireSafe(w, t, m, i);
    case Disown(t, m) => DisownSafe(w, t, m);
    case Give(t, m) => GiveSafe(w, t, m, GiveMutex(w, t, m).mutexes[m]);
    case TakeRecursive(t, m) =>
      if Holds(w, t, m) {
        DepthSafe(w, m, w.mutexes[m].depth + 1);
      } else {
        TakeSafe(w, t, m, 1);
      }
    case GiveRecursive(t, m) =>
      if Holds(w, t, m) {
        if w.mutexes[m].depth == 1 {
          var v := w.(mutexes := w.mutexes[m := w.mutexes[m].(depth := 0)]);
          var y := GiveMutex(v, t, m).mutexes[m];
          assert v.mutexes[m := y] == w.mutexes[m := y];
          GiveSafe(w, t, m, y);
        } else {
          DepthSafe(w, m, w.mutexes[m].depth - 1);
        }
      }
    case AwaitBits(t, value) => ItemSafe(w, t, value, true);
    case ResetItem(t) => ItemSafe(w, t, Key(w.tcbs[t].prio), false);
  }

  /** The item value of a task that waits for no mutex may be used for something else. */
  lemma ItemSafe(w: World, t: Task, value: nat, inUse: bool)
    requires Safe(w) && t in w.tcbs && !Waits(w, t) && (!inUse ==> value == Key(w.tcbs[t].prio))
    ensures Safe(w.(tcbs := w.tcbs[t := w.tcbs[t].(key := value, inUse := inUse)]))
  {
    hide Conserved, Keys, Sorted;
    ItemConserves(w, t, value, inUse);
    var tcb := w.tcbs[t].(key := value, inUse := inUse);
    forall m | m in w.mutexes ensures Keys(w.mutexes[m].waiting, w.tcbs[t := tcb]) == Keys(w.mutexes[m].waiting, w.tcbs) {
      KeysFrame(w.mutexes[m].waiting, w.tcbs, t, tcb);
    }
  }

  lemma SafeIsConserved(w: World)
    requires Safe(w)
    ensures Conserved(w)
  {
  }

  ghost predicate PlainRun(w: World, steps: seq<Step>)
    requires Possible(w, steps)
    decreases |steps|
  {
    steps == [] || (Plain(w, steps[0]) && PlainRun(Next(w, steps[0]), steps[1..]))
  }

  lemma {:induction false} RunSafe(w: World, steps: seq<Step>)
    requires Safe(w) && Possible(w, steps) && PlainRun(w, steps)
    ensures Safe(Run(w, steps))
    decreases |steps|
  {
    if steps != [] {
      NextSafe(w, steps[0]);
      RunSafe(Next(w, steps[0]), steps[1..]);
    }
  }

  /** Through blocking, timeouts and partial disinheritance, whoever holds a mutex runs at least
      at its base priority, and at least at the priority of every task that has blocked on the
      mutex during this hold and still waits for it. */
  lemma HolderPriority(w: World, steps: seq<Step>, m: Id, t: Task)
    requires Safe(w) && Possible(w, steps) && PlainRun(w, steps)
    requires m in Run(w, steps).mutexes && Run(w, steps).mutexes[m].holder.Some?
    ensures var v := Run(w, steps);
            var h := v.mutexes[m].holder.value;
            && h in v.tcbs && v.tcbs[h].base <= v.tcbs[h].prio
            && (t in v.mutexes[m].waiting && t in v.mutexes[m].joined ==>
                  t in v.tcbs && v.tcbs[t].prio <= v.tcbs[h].prio)
  {
    RunSafe(w, steps);
  }

  // ---- Who is woken ----

  /** Giving a mutex back takes the first waiter off the list and wakes it, and nobody else. */
  lemma GiveWakesTheFirst(w: World, t: Task, m: Id)
    requires t in w.tcbs && m in w.mutexes && w.tcbs[t].held > 0
    ensures var x, y := w.mutexes[m], GiveMutex(w, t, m).mutexes[m];
            && (x.waiting != [] ==> x.waiting == [x.waiting[0]] + y.waiting && y.woken == x.woken + {x.waiting[0]})
            && (x.waiting == [] ==> y.waiting == [] && y.woken == x.woken)
            && forall n :: n in w.mutexes && n != m ==> GiveMutex(w, t, m).mutexes[n] == w.mutexes[n]
  {
  }

  /** The step gives mutex m free. */
  predicate Frees(w: World, s: Step, m: Id)
    requires m in w.mutexes
  {
    OnMutex(s) && s.m == m && (s.Give? || (s.GiveRecursive? && Holds(w, s.t, m) && w.mutexes[m].depth == 1))
  }

  predicate Tries(s: Step, m: Id) {
    OnMutex(s) && s.m == m && (s.Take? || s.TakeRecursive?)
  }

  /** The wait list of a mutex loses its first task by a give that frees the mutex, the task whose
      wait is over by a timeout, gets a task that blocks, and is left alone by everything else. */
  lemma WaitListMoves(w: World, s: Step, m: Id)
    requires Conserved(w) && Enabled(w, s) && m in w.mutexes
    ensures var v := Next(w, s); m in v.mutexes && var x, y := w.mutexes[m], v.mutexes[m];
            if Frees(w, s, m) && x.waiting != [] then
              x.waiting == [x.waiting[0]] + y.waiting && y.woken == x.woken + {x.waiting[0]}
            else if s.Expire? && s.m == m then
              y.waiting == Cut(x.waiting, s.i) && y.woken == x.woken
            else if s.Block? && s.m == m then
              (exists p :: 0 <= p <= |x.waiting| && y.waiting == Splice(x.waiting, p, s.t)) && y.woken == x.woken - {s.t}
            else
              && y.waiting == x.waiting
              && y.woken == (if Tries(s, m) && (s.Take? || !Holds(w, s.t, m)) then x.woken - {s.t} else x.woken)
  {
    hide Conserved, HeldBy, Waits, InsertPos, Keys, Cut, Inherit, Disinherit, HighestWaiting, DisinheritAfterTimeout;
    var x := w.mutexes[m];
    if s.Block? && s.m == m {
      var y := Next(w, s).mutexes[m];
      var tcbs := Next(w, s).tcbs;
      var p := InsertPos(Keys(x.waiting, tcbs), tcbs[s.t].key);
      assert y.waiting == Splice(x.waiting, p, s.t);
    } else if Frees(w, s, m) {
      FreedTail(x.waiting);
    }
  }

  lemma FreedTail(s: seq<Task>)
    ensures s != [] ==> s == [s[0]] + s[1..]
  {
  }

  /** If the mutex is free and a task waits, a task has been woken that has not tried yet; the
      woken tasks are not on the list, and nobody is on it twice. */
  ghost predicate Seen(x: Mutex) {
    && (x.holder == None && x.waiting != [] ==> x.woken != {})
    && Distinct(x.waiting) && (forall t :: t in x.waiting ==> t !in x.woken)
  }

  lemma HolderMoves(w: World, s: Step, m: Id)
    requires Conserved(w) && Enabled(w, s) && m in w.mutexes
    ensures var v := Next(w, s); m in v.mutexes && var x, y := w.mutexes[m], v.mutexes[m];
            && (Frees(w, s, m) ==> y.holder == None)
            && (Tries(s, m) ==> y.holder.Some?)
            && (!Frees(w, s, m) && !Tries(s, m) ==> y.holder == x.holder)
            && (s.Block? && s.m == m ==> y.holder.Some?)
  {
    hide Conserved, HeldBy, Waits, Splice, InsertPos, Keys, Cut, Inherit, Disinherit, HighestWaiting, DisinheritAfterTimeout;
    ConservedAt(w, m);
  }

  lemma NextSeen(w: World, s: Step, m: Id)
    requires Conserved(w) && Enabled(w, s) && m in w.mutexes && Seen(w.mutexes[m])
    ensures m in Next(w, s).mutexes && Seen(Next(w, s).mutexes[m])
  {
    hide Conserved, Next, Splice, Cut, Distinct;
    WaitListMoves(w, s, m);
    HolderMoves(w, s, m);
    var x, y := w.mutexes[m], Next(w, s).mutexes[m];
    if Frees(w, s, m) && x.waiting != [] {
      TailDistinct(x.waiting);
    } else if s.Expire? && s.m == m {
      CutFacts(x.waiting, s.i);
    } else if s.Block? && s.m == m {
      var p :| 0 <= p <= |x.waiting| && y.waiting == Splice(x.waiting, p, s.t);
      SpliceFacts(x.waiting, p, s.t);
      RunsIsOff(w, s.t, m);
    }
  }

  lemma TailDistinct(s: seq<Task>)
    requires s != [] && Distinct(s)
    ensures Distinct(s[1..]) && s[0] !in s[1..] && s[1..] == ([s[0]] + s[1..])[1..]
  {
    assert forall i :: 0 <= i < |s[1..]| ==> s[1..][i] == s[i + 1];
  }

  lemma RunsIsOff(w: World, t: Task, m: Id)
    requires Runs(w, t) && m in w.mutexes
    ensures t !in w.mutexes[m].waiting
  {
  }

  /** No wake-up is lost: over every run from fresh mutexes, while a mutex is free and tasks wait for
      it, some task has been woken by a give and has not tried again; once all of those have
      tried, the mutex has a holder or nobody waits. */
  lemma {:induction false} FreeMutexIsSeen(w: World, steps: seq<Step>, m: Id)
    requires Conserved(w) && Possible(w, steps) && m in w.mutexes && Seen(w.mutexes[m])
    ensures m in Run(w, steps).mutexes && Seen(Run(w, steps).mutexes[m])
    decreases |steps|
  {
    hide Conserved, Seen, Next;
    if steps != [] {
      NextConserves(w, steps[0]);
      NextSeen(w, steps[0], m);
      FreeMutexIsSeen(Next(w, steps[0]), steps[1..], m);
    }
  }

  // ---- When a priority falls ----

  /** A task's priority falls only when it is set, when it gives back the last mutex it holds, or
      when a waiter of the only mutex it holds has timed out. */
  lemma PriorityFallsOnly(w: World, s: Step, t: Task)
    requires Conserved(w) && Enabled(w, s) && t in w.tcbs
    ensures t in Next(w, s).tcbs
    ensures Next(w, s).tcbs[t].prio < w.tcbs[t].prio ==>
              || (s.SetPriority? && s.t == t)
              || (s.t == t && OnMutex(s) && Frees(w, s, s.m) && w.tcbs[t].held == 1)
              || (s.Disown? && Holds(w, t, s.m) && w.tcbs[t].held == 1)
  {
    hide HeldBy, Waits, Splice, InsertPos, Keys, Cut, HighestWaiting;
  }

  /** What vTaskPrioritySet does: the base priority is the one wanted, below the limit; the priority
      follows it unless it is inherited. */
  lemma SetBaseMeans(t: Tcb, wanted: nat)
    ensures var u, p := SetBase(t, wanted), if wanted < MAX_PRIORITIES then wanted else MAX_PRIORITIES - 1;
            && u.base == p && u.held == t.held && u.inUse == t.inUse
            && (t.prio == t.base ==> u.prio == p) && (t.prio != t.base ==> u.prio == t.prio)
            && (t.inUse ==> u.key == t.key) && (!t.inUse && t.base != p ==> u.key == Key(p))
  {
  }

  /** A holder that has inherited is left below its base priority exactly if that is set above the
      inherited one; and its item value stands for its priority afterwards exactly if it has not
      inherited, or the base is set to the inherited priority or not changed. */
  lemma SetBaseKeepsOrderIff(t: Tcb, wanted: nat)
    requires t.base <= t.prio < MAX_PRIORITIES && !t.inUse && t.key == Key(t.prio)
    ensures var u := SetBase(t, wanted);
            && (u.base <= u.prio <==> t.prio == t.base || u.base <= t.prio)
            && (u.key == Key(u.prio) <==> t.prio == t.base || u.base == t.prio || u.base == t.base)
  {
  }

  /** A holder with base priority 1 that has inherited 3 is set to 5, and stays at 3. */
  lemma SetBaseLeavesItBelow()
    ensures var t := SetBase(Tcb(3, 1, 1, Key(3), false), 5); t.base == 5 && t.prio == 3
  {
  }

  /** Setting a priority changes the record of that task, and no other; waiting for event bits puts
      the item value in use for them, and resetting it gives it back to the priority. */
  lemma OwnRecord(w: World, s: Step)
    requires Enabled(w, s) && (s.SetPriority? || s.AwaitBits? || s.ResetItem?)
    ensures var v, a := Next(w, s), w.tcbs[s.t];
            && v.mutexes == w.mutexes && v.inherited == w.inherited && s.t in v.tcbs && v.tcbs == w.tcbs[s.t := v.tcbs[s.t]]
            && var b := v.tcbs[s.t];
               match s
               case SetPriority(t, p) => b.base == (if p < MAX_PRIORITIES then p else MAX_PRIORITIES - 1) && b.held == a.held
               case AwaitBits(t, value) => b == a.(key := value, inUse := true)
               case ResetItem(t) => b == a.(key := Key(a.prio), inUse := false)
  {
  }

  /** A wait for event bits and the reset after it leave everything as it was. */
  lemma ResetUndoesAwait(w: World, t: Task, value: nat)
    requires Enabled(w, AwaitBits(t, value)) && w.tcbs[t].key == Key(w.tcbs[t].prio)
    ensures var v := Next(w, AwaitBits(t, value)); Known(v) && t in v.tcbs && Next(v, ResetItem(t)) == w
  {
    hide Waits, Key;
    var v := Next(w, AwaitBits(t, value));
    assert Next(v, ResetItem(t)).tcbs == w.tcbs;
  }

  /** Inheriting, falling back and being set leave an item value in use alone. */
  lemma UsedItemStays(t: Tcb, prio: nat)
    requires t.inUse
    ensures Inherit(t, prio).0.key == t.key && DisinheritAfterTimeout(t, prio).key == t.key && SetBase(t, prio).key == t.key
    ensures Inherit(t, prio).0.inUse && DisinheritAfterTimeout(t, prio).inUse && SetBase(t, prio).inUse
  {
  }

  // ---- The calls ----

  class MutexCalls {
    var tcbs: map<Task, Tcb>
    var mutexes: map<Id, Mutex>
    var inherited: set<Task>

    ghost function State(): World
      reads this
    {
      World(tcbs, mutexes, inherited)
    }

    /** xTaskPriorityInherit */
    method PriorityInherit(holder: Task, current: Task) returns (occurred: bool)
      requires holder in tcbs && current in tcbs
      modifies `tcbs
      ensures tcbs == old(tcbs)[holder := Inherit(old(tcbs)[holder], old(tcbs)[current].prio).0]
      ensures occurred == Inherit(old(tcbs)[holder], old(tcbs)[current].prio).1
    {
      occurred := false;
      if tcbs[holder].prio < tcbs[current].prio {
        if !tcbs[holder].inUse {
          tcbs := tcbs[holder := tcbs[holder].(key := Key(tcbs[current].prio))];
        }
        tcbs := tcbs[holder := tcbs[holder].(prio := tcbs[current].prio)];
        occurred := true;
      } else {
        if tcbs[holder].base < tcbs[current].prio {
          occurred := true;
        }
        assert tcbs == tcbs[holder := tcbs[holder]];
      }
    }

    /** xTaskPriorityDisinherit; the result asks for a yield. */
    method PriorityDisinherit(holder: Task) returns (asks: bool)
      requires holder in tcbs && tcbs[holder].held > 0
      modifies `tcbs
      ensures tcbs == old(tcbs)[holder := Disinherit(old(tcbs)[holder])]
      ensures asks <==> tcbs[holder].prio != old(tcbs)[holder].prio
    {
      asks := false;
      tcbs := tcbs[holder := tcbs[holder].(held := tcbs[holder].held - 1)];
      if tcbs[holder].prio != tcbs[holder].base {
        if tcbs[holder].held == 0 {
          tcbs := tcbs[holder := tcbs[holder].(prio := tcbs[holder].base)];
          tcbs := tcbs[holder := tcbs[holder].(key := Key(tcbs[holder].prio))];
          asks := true;
        }
      }
    }

    /** vTaskPriorityDisinheritAfterTimeout */
    method PriorityDisinheritAfterTimeout(holder: Task, highest: nat)
      requires holder in tcbs
      modifies `tcbs
      ensures tcbs == old(tcbs)[holder := DisinheritAfterTimeout(old(tcbs)[holder], highest)]
    {
      var use := tcbs[holder].base;
      if tcbs[holder].base < highest {
        use := highest;
      }
      if tcbs[holder].prio != use && tcbs[holder].held == 1 {
        tcbs := tcbs[holder := tcbs[holder].(prio := use)];
        if !tcbs[holder].inUse {
          tcbs := tcbs[holder := tcbs[holder].(key := Key(use))];
        }
      } else {
        assert tcbs == tcbs[holder := tcbs[holder]];
      }
    }

    /** xQueueSemaphoreTake, up to the point where the caller would have to wait. */
    method SemaphoreTake(t: Task, m: Id) returns (ok: bool)
      requires t in tcbs && m in mutexes && Conserved(State())
      modifies `tcbs, `mutexes
      ensures State() == TakeMutex(old(State()), t, m, 0)
      ensures ok <==> old(mutexes)[m].holder == None
    {
      hide Conserved;
      ConservedAt(State(), m);
      ok := false;
      if mutexes[m].count > 0 {
        mutexes := mutexes[m := mutexes[m].(count := mutexes[m].count - 1)];
        tcbs := tcbs[t := tcbs[t].(held := tcbs[t].held + 1)];
        mutexes := mutexes[m := mutexes[m].(holder := Some(t), joined := {})];
        ok := true;
      }
      mutexes := mutexes[m := mutexes[m].(woken := mutexes[m].woken - {t})];
    }

    /** The part of xQueueSemaphoreTake that blocks: inherit, then vTaskPlaceOnEventList. */
    method WaitFor(t: Task, m: Id)
      requires Enabled(State(), Block(t, m))
      modifies `tcbs, `mutexes, `inherited
      ensures State() == Next(old(State()), Block(t, m))
    {
      var occurred := PriorityInherit(mutexes[m].holder.value, t);
      inherited := if occurred then inherited + {t} else inherited - {t};
      var x := mutexes[m];
      var p := InsertPos(Keys(x.waiting, tcbs), tcbs[t].key);
      mutexes := mutexes[m := x.(waiting := Splice(x.waiting, p, t), joined := x.joined + {t}, woken := x.woken - {t})];
    }

    /** The part of xQueueSemaphoreTake after a timeout. */
    method TimedOut(t: Task, m: Id)
      requires Enabled(State(), Disown(t, m))
      modifies `tcbs, `inherited
      ensures State() == Next(old(State()), Disown(t, m))
    {
      if mutexes[m].count == 0 {
        if t in inherited && mutexes[m].holder.Some? {
          PriorityDisinheritAfterTimeout(mutexes[m].holder.value, HighestWaiting(mutexes[m], tcbs));
        }
      }
      inherited := inherited - {t};
    }

    /** xQueueGenericSend on a mutex that the caller holds; the result says whether it yields. If it
        wakes a task, that task alone decides. */
    method GenericSend(t: Task, m: Id) returns (asks: bool)
      requires t in tcbs && m in mutexes && mutexes[m].holder == Some(t) && tcbs[t].held > 0
      modifies `tcbs, `mutexes
      requires mutexes[m].waiting != [] ==> mutexes[m].waiting[0] in tcbs
      ensures State() == GiveMutex(old(State()), t, m)
      ensures asks <==> if old(mutexes)[m].waiting == [] then tcbs[t].prio != old(tcbs)[t].prio
                        else tcbs[old(mutexes)[m].waiting[0]].prio > tcbs[t].prio
    {
      asks := PriorityDisinherit(t);
      mutexes := mutexes[m := mutexes[m].(holder := None)];
      mutexes := mutexes[m := mutexes[m].(count := mutexes[m].count + 1)];
      if mutexes[m].waiting != [] {
        asks := tcbs[mutexes[m].waiting[0]].prio > tcbs[t].prio;
        mutexes := mutexes[m := mutexes[m].(woken := mutexes[m].woken + {mutexes[m].waiting[0]})];
        mutexes := mutexes[m := mutexes[m].(waiting := mutexes[m].waiting[1..])];
      }
    }

    /** xQueueTakeMutexRecursive, without waiting. */
    method TakeMutexRecursive(t: Task, m: Id) returns (ok: bool)
      requires Conserved(State()) && Enabled(State(), TakeRecursive(t, m))
      modifies `tcbs, `mutexes
      ensures State() == Next(old(State()), TakeRecursive(t, m))
      ensures ok <==> old(mutexes)[m].holder == None || old(mutexes)[m].holder == Some(t)
    {
      hide Conserved, Waits;
      ConservedAt(State(), m);
      if mutexes[m].holder == Some(t) {
        mutexes := mutexes[m := mutexes[m].(depth := mutexes[m].depth + 1)];
        ok := true;
      } else {
        ok := SemaphoreTake(t, m);
        if ok {
          mutexes := mutexes[m := mutexes[m].(depth := mutexes[m].depth + 1)];
        }
      }
    }

    /** xQueueGiveMutexRecursive */
    method GiveMutexRecursive(t: Task, m: Id) returns (ok: bool)
      requires Enabled(State(), GiveRecursive(t, m))
      modifies `tcbs, `mutexes
      ensures State() == Next(old(State()), GiveRecursive(t, m))
      ensures ok <==> old(mutexes)[m].holder == Some(t)
    {
      ok := mutexes[m].holder == Some(t);
      if ok {
        mutexes := mutexes[m := mutexes[m].(depth := mutexes[m].depth - 1)];
        if mutexes[m].depth == 0 {
          var asks := GenericSend(t, m);
        }
      }
    }
  }
}
