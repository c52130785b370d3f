/**
  event_groups.c: bits that tasks wait for, alone or together, with the wait condition of
  each task packed into its event list item next to the control bits.
*/
module EventGroups {
  import opened Rings

  type Task = nat
  type Bits = bv32

  const CLEAR_ON_EXIT: Bits := 0x01000000      // eventCLEAR_EVENTS_ON_EXIT_BIT
  const UNBLOCKED: Bits := 0x02000000          // eventUNBLOCKED_DUE_TO_BIT_SET
  const WAIT_FOR_ALL: Bits := 0x04000000       // eventWAIT_FOR_ALL_BITS
  const CONTROL: Bits := 0xFF000000            // eventEVENT_BITS_CONTROL_BYTES
  const IN_USE: Bits := 0x80000000             // taskEVENT_LIST_ITEM_VALUE_IN_USE

  function Join(a: Bits, b: Bits): Bits {
    a | b
  }

  function Less(a: Bits, b: Bits): Bits {
    a & !b
  }

  predicate Includes(a: Bits, wanted: Bits) {
    a & wanted == wanted
  }

  predicate Touches(a: Bits, wanted: Bits) {
    a & wanted != 0
  }

  /** prvTestWaitCondition */
  predicate Met(current: Bits, wanted: Bits, all: bool) {
    if all then Includes(current, wanted) else Touches(current, wanted)
  }

  predicate Usable(bits: Bits) {
    bits & CONTROL == 0
  }

  /** Fewer bits satisfy no more. */
  lemma FewerBits(a: Bits, b: Bits, wanted: Bits)
    ensures !Includes(a, wanted) ==> !Includes(Less(a, b), wanted)
    ensures !Touches(a, wanted) ==> !Touches(Less(a, b), wanted)
    ensures Usable(a) ==> Usable(Less(a, b))
  {
  }

  lemma JoinUsable(a: Bits, b: Bits)
    requires Usable(a) && Usable(b)
    ensures Usable(Join(a, b))
  {
  }

  lemma TouchesJoin(a: Bits, b: Bits, bit: Bits)
    ensures Touches(Join(a, b), bit) <==> Touches(a, bit) || Touches(b, bit)
    ensures !Touches(0, bit)
  {
    Distribute(a, b, bit);
    OrIsZero(a & bit, b & bit);
  }

  lemma Distribute(a: Bits, b: Bits, c: Bits)
    ensures (a | b) & c == (a & c) | (b & c)
  {
  }

  lemma OrIsZero(a: Bits, b: Bits)
    ensures a | b == 0 <==> a == 0 && b == 0
  {
  }

  // ---- Packing ----

  /** The item value of a task that waits: vTaskPlaceOnUnorderedEventList adds the in-use bit. */
  function Pack(wanted: Bits, clear: bool, all: bool): Bits {
    wanted | (if clear then CLEAR_ON_EXIT else 0) | (if all then WAIT_FOR_ALL else 0) | IN_USE
  }

  function Wanted(value: Bits): Bits {
    value & !CONTROL
  }

  predicate Clears(value: Bits) {
    value & CONTROL & CLEAR_ON_EXIT != 0
  }

  predicate WantsAll(value: Bits) {
    value & CONTROL & WAIT_FOR_ALL != 0
  }

  /** The item value of a task that has been released with the bits it saw. */
  function PackResult(bits: Bits): Bits {
    bits | UNBLOCKED | IN_USE
  }

  predicate WasReleased(value: Bits) {
    value & UNBLOCKED != 0
  }

  /** Everything that is packed comes out again, and waiting and released values differ. */
  lemma PackingIsLossless(wanted: Bits, clear: bool, all: bool)
    requires Usable(wanted)
    ensures var v := Pack(wanted, clear, all);
            Wanted(v) == wanted && Clears(v) == clear && WantsAll(v) == all && !WasReleased(v)
    ensures Wanted(PackResult(wanted)) == wanted && WasReleased(PackResult(wanted))
  {
  }

  // ---- Setting bits ----

  datatype Item = Item(who: Task, value: Bits)

  /** The test in the loop of xEventGroupSetBits. */
  predicate Satisfied(x: Item, bits: Bits) {
    if WantsAll(x.value) then Includes(bits, Wanted(x.value)) else Touches(bits, Wanted(x.value))
  }

  /** The first k waiters, without those that are released. */
  function Staying(s: seq<Item>, bits: Bits, k: nat): (r: seq<Item>)
    requires k <= |s|
    ensures |r| <= k
    decreases k
  {
    if k == 0 then []
    else Staying(s, bits, k - 1) + if Satisfied(s[k - 1], bits) then [] else [s[k - 1]]
  }

  /** The wanted bits of all those among the first k that are released and clear on exit. */
  function ClearMask(s: seq<Item>, bits: Bits, k: nat): Bits
    requires k <= |s|
    decreases k
  {
    if k == 0 then 0
    else Join(ClearMask(s, bits, k - 1),
              if Satisfied(s[k - 1], bits) && Clears(s[k - 1].value) then Wanted(s[k - 1].value) else 0)
  }

  /** The item values of tasks, after those among the first k that are released got theirs. */
  function Deliver(values: map<Task, Bits>, s: seq<Item>, bits: Bits, k: nat): map<Task, Bits>
    requires k <= |s|
    decreases k
  {
    if k == 0 then values
    else
      var v := Deliver(values, s, bits, k - 1);
      if Satisfied(s[k - 1], bits) then v[s[k - 1].who := PackResult(bits)] else v
  }

  lemma WalkBegins(values: map<Task, Bits>, s: seq<Item>, bits: Bits)
    ensures Staying(s, bits, 0) == [] && ClearMask(s, bits, 0) == 0 && Deliver(values, s, bits, 0) == values
  {
  }

  /** One waiter further along the list. */
  lemma WalkGoesOn(values: map<Task, Bits>, s: seq<Item>, bits: Bits, k: nat)
    requires k < |s|
    ensures Staying(s, bits, k + 1) == Staying(s, bits, k) + if Satisfied(s[k], bits) then [] else [s[k]]
    ensures Satisfied(s[k], bits) ==>
              && ClearMask(s, bits, k + 1) ==
                 Join(ClearMask(s, bits, k), if Clears(s[k].value) then Wanted(s[k].value) else 0)
              && Deliver(values, s, bits, k + 1) == Deliver(values, s, bits, k)[s[k].who := PackResult(bits)]
    ensures !Satisfied(s[k], bits) ==>
              && ClearMask(s, bits, k + 1) == ClearMask(s, bits, k)
              && Deliver(values, s, bits, k + 1) == Deliver(values, s, bits, k)
  {
    hide Satisfied, Clears, Wanted, PackResult, Join;
    JoinNothing(ClearMask(s, bits, k));
  }

  lemma JoinNothing(a: Bits)
    ensures Join(a, 0) == a
  {
  }

  lemma {:induction false} StayingIffNotSatisfied(s: seq<Item>, bits: Bits, k: nat, x: Item)
    requires k <= |s|
    ensures x in Staying(s, bits, k) <==> x in s[..k] && !Satisfied(x, bits)
    decreases k
  {
    hide Satisfied;
    if k > 0 {
      StayingIffNotSatisfied(s, bits, k - 1, x);
      assert s[..k] == s[..k - 1] + [s[k - 1]];
    }
  }

  /** Those that stay keep their order. */
  lemma {:induction false} StayingKeepsOrder(s: seq<Item>, bits: Bits, k: nat, j: nat) returns (i: nat)
    requires k <= |s| && j < |Staying(s, bits, k)|
    ensures i < k && Staying(s, bits, k)[j] == s[i] && !Satisfied(s[i], bits)
    ensures i == 0 || j == |Staying(s, bits, i)|
    decreases k
  {
    hide Satisfied;
    if j < |Staying(s, bits, k - 1)| {
      i := StayingKeepsOrder(s, bits, k - 1, j);
    } else {
      i := k - 1;
    }
  }

  /** Every task that is released gets the same value, and nobody else gets one. */
  lemma {:induction false} DeliveredIffSatisfied(values: map<Task, Bits>, s: seq<Item>, bits: Bits, k: nat, t: Task)
    requires k <= |s|
    ensures var v := Deliver(values, s, bits, k);
            if exists i :: 0 <= i < k && s[i].who == t && Satisfied(s[i], bits)
            then t in v && v[t] == PackResult(bits)
            else (t in v <==> t in values) && (t in v ==> v[t] == values[t])
    decreases k
  {
    hide Satisfied, PackResult;
    if k > 0 {
      DeliveredIffSatisfied(values, s, bits, k - 1, t);
    }
  }

  datatype Group = Group(bits: Bits, waiting: seq<Item>)

  /** xEventGroupSetBits */
  function SetBits(g: Group, toSet: Bits): Group {
    var bits, n := Join(g.bits, toSet), |g.waiting|;
    Group(Less(bits, ClearMask(g.waiting, bits, n)), Staying(g.waiting, bits, n))
  }

  // ---- The calls ----

  datatype Call =
    | Set(bits: Bits)
    | Clear(bits: Bits)
    | WaitBits(who: Task, wanted: Bits, clear: bool, all: bool, blocks: bool)
    | Sync(who: Task, toSet: Bits, wanted: Bits, blocks: bool)
    | TimeOut(i: nat)                                            // the i-th waiter leaves the list
    | LateTest(wanted: Bits, clear: bool, all: bool)             // what it does when it runs

  /** What the calls assert of their arguments. */
  predicate Allowed(g: Group, c: Call) {
    match c
    case Set(bits) => Usable(bits)
    case Clear(bits) => Usable(bits)
    case WaitBits(_, wanted, _, _, _) => Usable(wanted) && wanted != 0
    case Sync(_, toSet, wanted, _) => Usable(toSet) && Usable(wanted) && wanted != 0
    case TimeOut(i) => i < |g.waiting|
    case LateTest(wanted, _, _) => Usable(wanted)
  }

  function Enqueue(g: Group, who: Task, value: Bits): Group {
    g.(waiting := g.waiting + [Item(who, value)])
  }

  function Apply(g: Group, c: Call): Group
    requires Allowed(g, c)
  {
    match c
    case Set(bits) => SetBits(g, bits)
    case Clear(bits) => g.(bits := Less(g.bits, bits))
    case WaitBits(who, wanted, clear, all, blocks) =>
      if Met(g.bits, wanted, all) then (if clear then g.(bits := Less(g.bits, wanted)) else g)
      else if blocks then Enqueue(g, who, Pack(wanted, clear, all))
      else g
    case Sync(who, toSet, wanted, blocks) =>
      var h := SetBits(g, toSet);
      if Includes(Join(g.bits, toSet), wanted) then h.(bits := Less(h.bits, wanted))
      else if blocks then Enqueue(h, who, Pack(wanted, true, true))
      else h
    case TimeOut(i) => g.(waiting := Cut(g.waiting, i))
    case LateTest(wanted, clear, all) =>
      if Met(g.bits, wanted, all) && clear then g.(bits := Less(g.bits, wanted)) else g
  }

  /** Nobody waits for what is already there, and the control bits are never set. */
  ghost predicate Stable(g: Group) {
    && Usable(g.bits)
    && forall x :: x in g.waiting ==> !Satisfied(x, g.bits)
  }

  lemma LessKeepsStable(g: Group, bits: Bits)
    requires Stable(g)
    ensures Stable(g.(bits := Less(g.bits, bits)))
  {
    hide Less, Includes, Touches, Wanted, WantsAll, Usable;
    FewerBits(g.bits, bits, 0);
    forall x | x in g.waiting ensures !Satisfied(x, Less(g.bits, bits)) {
      FewerBits(g.bits, bits, Wanted(x.value));
    }
  }

  lemma SetKeepsStable(g: Group, toSet: Bits)
    requires Stable(g) && Usable(toSet)
    ensures Stable(SetBits(g, toSet))
  {
    hide Satisfied, Usable, Join, Less, ClearMask, Staying;
    var all, n := Join(g.bits, toSet), |g.waiting|;
    JoinUsable(g.bits, toSet);
    forall x | x in Staying(g.waiting, all, n) ensures !Satisfied(x, all) {
      StayingIffNotSatisfied(g.waiting, all, n, x);
    }
    LessKeepsStable(Group(all, Staying(g.waiting, all, n)), ClearMask(g.waiting, all, n));
  }

  /** The test made before blocking is the test made on the packed value. */
  lemma SameTest(who: Task, current: Bits, wanted: Bits, clear: bool, all: bool)
    requires Usable(wanted)
    ensures Satisfied(Item(who, Pack(wanted, clear, all)), current) <==> Met(current, wanted, all)
  {
    PackingIsLossless(wanted, clear, all);
    hide Pack, Wanted, WantsAll, Clears, Includes, Touches, Usable, WasReleased;
  }

  /** No call ever leaves a task waiting for what is already there. */
  lemma ApplyKeepsStable(g: Group, c: Call)
    requires Stable(g) && Allowed(g, c)
    ensures Stable(Apply(g, c))
  {
    hide Satisfied, Pack, Usable, Met, Join, Less, Includes, Touches, SetBits;
    match c
    case Set(bits) => SetKeepsStable(g, bits);
    case Clear(bits) => LessKeepsStable(g, bits);
    case WaitBits(who, wanted, clear, all, blocks) =>
      LessKeepsStable(g, wanted);
      SameTest(who, g.bits, wanted, clear, all);
    case Sync(who, toSet, wanted, blocks) =>
      SetKeepsStable(g, toSet);
      LessKeepsStable(SetBits(g, toSet), wanted);
      if !Includes(Join(g.bits, toSet), wanted) {
        SyncStays(g, who, toSet, wanted);
      }
    case TimeOut(i) => CutFacts(g.waiting, i);
    case LateTest(wanted, clear, all) => LessKeepsStable(g, wanted);
  }

  lemma SyncStays(g: Group, who: Task, toSet: Bits, wanted: Bits)
    requires Usable(wanted) && !Includes(Join(g.bits, toSet), wanted)
    ensures !Satisfied(Item(who, Pack(wanted, true, true)), SetBits(g, toSet).bits)
  {
    hide Satisfied, Pack, Includes, Usable, Join, Less;
    FewerBits(Join(g.bits, toSet), ClearMask(g.waiting, Join(g.bits, toSet), |g.waiting|), wanted);
    SameTest(who, SetBits(g, toSet).bits, wanted, true, true);
  }

  ghost predicate Possible(g: Group, calls: seq<Call>)
    decreases |calls|
  {
    calls == [] || (Allowed(g, calls[0]) && Possible(Apply(g, calls[0]), calls[1..]))
  }

  ghost function Run(g: Group, calls: seq<Call>): Group
    requires Possible(g, calls)
    decreases |calls|
  {
    if calls == [] then g else Run(Apply(g, calls[0]), calls[1..])
  }

  lemma {:induction false} AlwaysStable(g: Group, calls: seq<Call>)
    requires Stable(g) && Possible(g, calls)
    ensures Stable(Run(g, calls))
    decreases |calls|
  {
    if calls != [] {
      ApplyKeepsStable(g, calls[0]);
      AlwaysStable(Apply(g, calls[0]), calls[1..]);
    }
  }

  /** The bits cleared at the end are exactly those wanted by a task that is released and
      clears on exit. */
  lemma {:induction false} ClearMaskIsUnion(s: seq<Item>, bits: Bits, k: nat, bit: Bits)
    requires k <= |s|
    ensures Touches(ClearMask(s, bits, k), bit) <==>
            exists i :: 0 <= i < k && Satisfied(s[i], bits) && Clears(s[i].value) && Touches(Wanted(s[i].value), bit)
    decreases k
  {
    hide Satisfied, Wanted, Clears, Join, Touches;
    TouchesJoin(0, 0, bit);
    if k > 0 {
      ClearMaskIsUnion(s, bits, k - 1, bit);
      TouchesJoin(ClearMask(s, bits, k - 1),
                  if Satisfied(s[k - 1], bits) && Clears(s[k - 1].value) then Wanted(s[k - 1].value) else 0, bit);
    }
  }

  // ---- What each call does, bit by bit and waiter by waiter ----

  predicate AllOrNone(a: Bits, bit: Bits) {
    a & bit == 0 || a & bit == bit
  }

  /** A single bit: any value has all of it or nothing. */
  ghost predicate IsBit(bit: Bits) {
    bit != 0 && forall a: Bits :: AllOrNone(a, bit)
  }

  lemma ThereAreBits(a: Bits)
    ensures AllOrNone(a, 0x1) && AllOrNone(a, 0x400000) && !AllOrNone(0x1, 0x3)
  {
  }

  lemma LessKeepsBit(a: Bits, b: Bits, bit: Bits)
    requires AllOrNone(a, bit) && Touches(a, bit) && !Touches(b, bit)
    ensures Touches(Less(a, b), bit)
  {
  }

  lemma LessDropsAbsent(a: Bits, b: Bits, bit: Bits)
    requires !Touches(a, bit)
    ensures !Touches(Less(a, b), bit)
  {
  }

  lemma LessDropsBit(a: Bits, b: Bits, bit: Bits)
    requires AllOrNone(b, bit) && Touches(b, bit)
    ensures !Touches(Less(a, b), bit)
  {
  }

  lemma LessTouches(a: Bits, b: Bits, bit: Bits)
    requires IsBit(bit)
    ensures Touches(Less(a, b), bit) <==> Touches(a, bit) && !Touches(b, bit)
  {
    hide Touches, Less, AllOrNone;
    assert AllOrNone(a, bit) && AllOrNone(b, bit);
    if !Touches(a, bit) {
      LessDropsAbsent(a, b, bit);
    } else if Touches(b, bit) {
      LessDropsBit(a, b, bit);
    } else {
      LessKeepsBit(a, b, bit);
    }
  }

  /** A waiter that the bits release, and that clears the bit on exit. */
  ghost predicate TakesAlong(s: seq<Item>, bits: Bits, bit: Bits) {
    exists i :: 0 <= i < |s| && Satisfied(s[i], bits) && Clears(s[i].value) && Touches(Wanted(s[i].value), bit)
  }

  /** A bit is set after a set if it was or is set, and no waiter that is released takes it along. */
  lemma SetBitsBit(g: Group, toSet: Bits, bit: Bits)
    requires IsBit(bit)
    ensures Touches(SetBits(g, toSet).bits, bit) <==>
            (Touches(g.bits, bit) || Touches(toSet, bit)) && !TakesAlong(g.waiting, Join(g.bits, toSet), bit)
  {
    hide Touches, Join, Less, Satisfied, Clears, Wanted, IsBit;
    TouchesJoin(g.bits, toSet, bit);
    ClearMaskIsUnion(g.waiting, Join(g.bits, toSet), |g.waiting|, bit);
    LessTouches(Join(g.bits, toSet), ClearMask(g.waiting, Join(g.bits, toSet), |g.waiting|), bit);
  }

  /** Each bit after each call. */
  lemma BitAfter(g: Group, c: Call, bit: Bits)
    requires Allowed(g, c) && IsBit(bit)
    ensures Touches(Apply(g, c).bits, bit) <==>
            match c
            case Set(x) => (Touches(g.bits, bit) || Touches(x, bit)) && !TakesAlong(g.waiting, Join(g.bits, x), bit)
            case Clear(x) => Touches(g.bits, bit) && !Touches(x, bit)
            case WaitBits(who, wanted, clear, all, blocks) =>
              Touches(g.bits, bit) && !(clear && Met(g.bits, wanted, all) && Touches(wanted, bit))
            case Sync(who, x, wanted, blocks) =>
              && (Touches(g.bits, bit) || Touches(x, bit)) && !TakesAlong(g.waiting, Join(g.bits, x), bit)
              && !(Includes(Join(g.bits, x), wanted) && Touches(wanted, bit))
            case TimeOut(i) => Touches(g.bits, bit)
            case LateTest(wanted, clear, all) =>
              Touches(g.bits, bit) && !(clear && Met(g.bits, wanted, all) && Touches(wanted, bit))
  {
    hide Touches, Join, Less, Met, Includes, IsBit, Pack, SetBits, TakesAlong, Usable;
    match c
    case Set(x) => SetBitsBit(g, x, bit);
    case Clear(x) => LessTouches(g.bits, x, bit);
    case WaitBits(who, wanted, clear, all, blocks) => LessTouches(g.bits, wanted, bit);
    case Sync(who, x, wanted, blocks) => SetBitsBit(g, x, bit); LessTouches(SetBits(g, x).bits, wanted, bit);
    case TimeOut(i) =>
    case LateTest(wanted, clear, all) => LessTouches(g.bits, wanted, bit);
  }

  /** The waiter a call adds at the end of the list, if it blocks. */
  function Joining(g: Group, c: Call): seq<Item> {
    match c
    case WaitBits(who, wanted, clear, all, blocks) =>
      if blocks && !Met(g.bits, wanted, all) then [Item(who, Pack(wanted, clear, all))] else []
    case Sync(who, x, wanted, blocks) =>
      if blocks && !Includes(Join(g.bits, x), wanted) then [Item(who, Pack(wanted, true, true))] else []
    case _ => []
  }

  /** Who waits after each call: those before whom it does not release, in their order, without one
      that has timed out, and behind them the one that blocks. */
  lemma WaitersAfter(g: Group, c: Call)
    requires Allowed(g, c)
    ensures match c
            case Set(x) => Apply(g, c).waiting == Staying(g.waiting, Join(g.bits, x), |g.waiting|)
            case Sync(who, x, wanted, blocks) =>
              Apply(g, c).waiting == Staying(g.waiting, Join(g.bits, x), |g.waiting|) + Joining(g, c)
            case TimeOut(i) => Splice(Apply(g, c).waiting, i, g.waiting[i]) == g.waiting
            case _ => Apply(g, c).waiting == g.waiting + Joining(g, c)
  {
    hide Touches, Join, Less, Met, Includes, Pack, Staying, ClearMask, Usable;
  }

  /** A task that is released returns bits that meet the condition it waited for. */
  lemma ReleasedSeesItsBits(x: Item, wanted: Bits, clear: bool, all: bool, bits: Bits)
    requires Usable(wanted) && Usable(bits) && x.value == Pack(wanted, clear, all) && Satisfied(x, bits)
    ensures WasReleased(PackResult(bits)) && Met(Wanted(PackResult(bits)), wanted, all)
  {
    PackingIsLossless(wanted, clear, all);
    PackingIsLossless(bits, clear, all);
    SameTest(x.who, bits, wanted, clear, all);
    hide Pack, PackResult, Wanted, WantsAll, Clears, Includes, Touches, Usable, WasReleased, Satisfied, Met;
  }

  // ---- The calls on a group ----

  class EventGroup {
    var bits: Bits
    var waiting: seq<Item>
    var values: map<Task, Bits>      // the event list item values of the tasks that use the group

    ghost function State(): Group
      reads this
    {
      Group(bits, waiting)
    }

    constructor ()
      ensures State() == Group(0, []) && Stable(State())
    {
      bits, waiting, values := 0, [], map[];
    }

    /** One item of the walk is dealt with: it stays where it is, or it is cut out. */
    static lemma WalkOn(kept: seq<Item>, s: seq<Item>, k: nat)
      requires k < |s|
      ensures (kept + s[k..])[|kept|] == s[k]
      ensures Cut(kept + s[k..], |kept|) == kept + s[k + 1..]
      ensures kept + s[k..] == (kept + [s[k]]) + s[k + 1..]
    {
    }

    /** The i-th waiter is satisfied: note what it clears, and vTaskRemoveFromUnorderedEventList. */
    method Release(i: nat, toClear: Bits) returns (mask: Bits)
      requires i < |waiting|
      modifies `waiting, `values
      ensures mask == Join(toClear, if Clears(old(waiting)[i].value) then Wanted(old(waiting)[i].value) else 0)
      ensures values == old(values)[old(waiting)[i].who := PackResult(bits)]
      ensures waiting == Cut(old(waiting), i)
    {
      hide Wanted, Clears, PackResult, Join;
      mask := toClear;
      if Clears(waiting[i].value) {
        mask := Join(mask, Wanted(waiting[i].value));
      } else {
        JoinNothing(mask);
      }
      values := values[waiting[i].who := PackResult(bits)];
      waiting := Cut(waiting, i);
    }

    /** Where the walk is once k of the waiters there were have been dealt with. */
    ghost predicate Walked(was: seq<Item>, values0: map<Task, Bits>, k: nat, i: nat, toClear: Bits)
      reads this
    {
      && k <= |was| && i == |Staying(was, bits, k)|
      && waiting == Staying(was, bits, k) + was[k..]
      && toClear == ClearMask(was, bits, k)
      && values == Deliver(values0, was, bits, k)
    }

    /** One turn of the loop of xEventGroupSetBits. */
    method Examine(i: nat, toClear: Bits, ghost was: seq<Item>, ghost values0: map<Task, Bits>, ghost k: nat)
      returns (next: nat, mask: Bits)
      requires k < |was| && Walked(was, values0, k, i, toClear)
      modifies `waiting, `values
      ensures Walked(was, values0, k + 1, next, mask)
    {
      hide Satisfied, Wanted, Clears, Join, PackResult, Cut, Staying, ClearMask, Deliver;
      WalkOn(Staying(was, bits, k), was, k);
      WalkGoesOn(values0, was, bits, k);
      next, mask := i, toClear;
      if Satisfied(waiting[i], bits) {
        mask := Release(i, toClear);
      } else {
        next := i + 1;
      }
    }

    /** xEventGroupSetBits: the walk along the wait list, from which items are removed on the way. */
    method SetEventBits(toSet: Bits) returns (result: Bits)
      modifies this
      ensures State() == SetBits(old(State()), toSet) && result == bits
      ensures values == Deliver(old(values), old(waiting), Join(old(bits), toSet), |old(waiting)|)
    {
      hide Join, Less, Staying, ClearMask, Deliver;
      ghost var was, k := waiting, 0;
      bits := Join(bits, toSet);
      var toClear: Bits := 0;
      var i: nat := 0;
      WalkBegins(values, was, bits);
      while i < |waiting|
        invariant Walked(was, old(values), k, i, toClear)
        invariant bits == Join(old(bits), toSet)
        decreases |was| - k
      {
        i, toClear := Examine(i, toClear, was, old(values), k);
        k := k + 1;
      }
      assert k == |was| && waiting == Staying(was, bits, k);
      bits := Less(bits, toClear);
      result := bits;
    }

    /** xEventGroupClearBits */
    method ClearEventBits(toClear: Bits) returns (before: Bits)
      requires Usable(toClear)
      modifies `bits
      ensures State() == Apply(old(State()), Clear(toClear)) && before == old(bits)
    {
      before := bits;
      bits := Less(bits, toClear);
    }

    /** The part of xEventGroupWaitBits before the task blocks, if it does. */
    method WaitForBits(who: Task, wanted: Bits, clear: bool, all: bool, blocks: bool)
      returns (result: Bits, blocked: bool)
      requires Allowed(State(), WaitBits(who, wanted, clear, all, blocks))
      modifies this
      ensures State() == Apply(old(State()), WaitBits(who, wanted, clear, all, blocks))
      ensures blocked <==> blocks && !Met(old(bits), wanted, all)
      ensures !blocked ==> result == old(bits) && values == old(values)
      ensures blocked ==> values == old(values)[who := Pack(wanted, clear, all)]
    {
      hide Pack, Met, Less;
      result, blocked := bits, false;
      if Met(bits, wanted, all) {
        if clear {
          bits := Less(bits, wanted);
        }
      } else if blocks {
        values := values[who := Pack(wanted, clear, all)];
        waiting := waiting + [Item(who, values[who])];
        blocked := true;
      }
    }

    /** The part of xEventGroupSync before the task blocks, if it does. */
    method Rendezvous(who: Task, toSet: Bits, wanted: Bits, blocks: bool) returns (result: Bits, blocked: bool)
      requires Allowed(State(), Sync(who, toSet, wanted, blocks))
      modifies this
      ensures State() == Apply(old(State()), Sync(who, toSet, wanted, blocks))
      ensures blocked <==> blocks && !Includes(Join(old(bits), toSet), wanted)
      ensures Includes(Join(old(bits), toSet), wanted) ==> result == Join(old(bits), toSet)
      ensures !blocked && !Includes(Join(old(bits), toSet), wanted) ==> result == bits
      ensures values == var v := Deliver(old(values), old(waiting), Join(old(bits), toSet), |old(waiting)|);
                        if blocked then v[who := Pack(wanted, true, true)] else v
    {
      hide Pack, Join, Less, Includes, SetBits, Deliver;
      var original := bits;
      blocked := false;
      var _ := SetEventBits(toSet);
      if Includes(Join(original, toSet), wanted) {
        result := Join(original, toSet);
        bits := Less(bits, wanted);
      } else if blocks {
        values := values[who := Pack(wanted, true, true)];
        waiting := waiting + [Item(who, values[who])];
        result, blocked := 0, true;
      } else {
        result := bits;
      }
    }

    /** What both calls do when a task that blocked runs again: the value it was released with,
        or after a timeout the bits as they are now, cleared if the condition is met after all. */
    method Resume(who: Task, wanted: Bits, clear: bool, all: bool) returns (result: Bits, timedOut: bool)
      requires who in values && Allowed(State(), LateTest(wanted, clear, all))
      modifies `bits
      ensures timedOut <==> !WasReleased(values[who])
      ensures !timedOut ==> State() == old(State()) && result == Wanted(values[who])
      ensures timedOut ==> State() == Apply(old(State()), LateTest(wanted, clear, all)) && result == Wanted(old(bits))
    {
      hide WasReleased, Wanted, Less, Met;
      result := values[who];
      timedOut := !WasReleased(result);
      if timedOut {
        result := bits;
        if Met(result, wanted, all) {
          if clear {
            bits := Less(bits, wanted);
          }
        }
      }
      result := Wanted(result);
    }
  }
}
