/**
  Who is woken by a queue, over every interleaving of tasks and interrupts. A task that
  finds the queue empty (or full) suspends the scheduler, locks the queue, looks again,
  puts itself on a wait list and unlocks, and interrupts may post and receive between any
  two of these steps. While the queue is locked they only count what they did; the unlock
  wakes that many waiters.

  The queue is two mirrored halves: the receiving half, whose stock is the messages
  waiting, and the sending half, whose stock is the free places. What is posted on one
  half is drawn from the other.
*/
module QueueWakeups {
  import opened Rings

  type Task = nat

  datatype Half = Half(
    stock: nat,           // uxMessagesWaiting, or uxLength - uxMessagesWaiting
    waiting: seq<Task>,   // xTasksWaitingToReceive, or xTasksWaitingToSend
    woken: set<Task>,     // taken off the list by an event, and not run since
    lock: int)            // cTxLock, or cRxLock; -1 is queueUNLOCKED

  // ---- One half ----

  /** xTaskRemoveFromEventList on the head of a list that is not empty. */
  function Wake(h: Half): Half {
    if h.waiting == [] then h
    else h.(waiting := h.waiting[1..], woken := h.woken + {h.waiting[0]})
  }

  /** A post from an interrupt, or from a task when the half is unlocked. With grow false
      a message is overwritten. The count of a locked half stops at the number of tasks. */
  function Post(h: Half, grow: bool, tasks: nat): Half {
    var g := if grow then h.(stock := h.stock + 1) else h;
    if h.lock == -1 then Wake(g)
    else if h.lock < tasks then g.(lock := h.lock + 1)
    else g
  }

  /** One unit of stock is taken. */
  function Draw(h: Half): Half
    requires h.stock > 0
  {
    h.(stock := h.stock - 1)
  }

  /** A task runs again, if it had been woken. */
  function Rerun(h: Half, t: Task): Half {
    h.(woken := h.woken - {t})
  }

  /** prvLockQueue */
  function Lock(h: Half): Half {
    if h.lock == -1 then h.(lock := 0) else h
  }

  /** vTaskPlaceOnEventList: the place depends on the priorities. */
  function Place(h: Half, t: Task, p: nat): Half
    requires p <= |h.waiting|
  {
    h.(waiting := Splice(h.waiting, p, t))
  }

  /** A waiter leaves for any reason but an event on this queue. */
  function Abandon(h: Half, i: nat): Half
    requires i < |h.waiting|
  {
    h.(waiting := Cut(h.waiting, i))
  }

  function WakeMany(h: Half, n: nat): Half
    decreases n
  {
    if n == 0 || h.waiting == [] then h else WakeMany(Wake(h), n - 1)
  }

  /** One half of prvUnlockQueue: a wake-up for each counted post, while tasks wait. */
  function Unlock(h: Half): Half {
    WakeMany(h, if h.lock > 0 then h.lock else 0).(lock := -1)
  }

  /** The wait list and the woken tasks are different tasks, all of them known. */
  ghost predicate Orderly(h: Half, all: set<Task>) {
    && Distinct(h.waiting)
    && (forall t :: t in h.waiting ==> t in all && t !in h.woken)
    && -1 <= h.lock <= |all|
  }

  /** No wake-up is missing: woken tasks and counted posts cover the stock. A full count
      covers everything, because there are no more waiters than tasks. */
  ghost predicate Covered(h: Half, all: set<Task>) {
    h.lock == |all| || h.stock <= |h.woken| + if h.lock > 0 then h.lock else 0
  }

  /** The half covers its waiters, and a task that has decided to join them. */
  ghost predicate Good(h: Half, all: set<Task>, joining: bool) {
    h.waiting != [] || joining ==> Covered(h, all)
  }

  lemma WakeKeepsOrder(h: Half, all: set<Task>)
    requires Orderly(h, all)
    ensures Orderly(Wake(h), all)
    ensures h.waiting != [] ==> |Wake(h).woken| == |h.woken| + 1
    ensures |Wake(h).woken| >= |h.woken|
  {
    if h.waiting != [] {
      var rest := h.waiting[1..];
      assert forall i :: 0 <= i < |rest| ==> rest[i] == h.waiting[i + 1];
    }
  }

  lemma PostKeeps(h: Half, grow: bool, all: set<Task>, joining: bool)
    requires Orderly(h, all) && (joining ==> h.lock >= 0)
    ensures var g := Post(h, grow, |all|);
            && Orderly(g, all) && (g.lock == -1 <==> h.lock == -1)
            && g.stock == h.stock + (if grow then 1 else 0)
            && (Good(h, all, joining) ==> Good(g, all, joining))
  {
    var g := if grow then h.(stock := h.stock + 1) else h;
    if h.lock == -1 {
      WakeKeepsOrder(g, all);
    }
  }

  lemma RerunKeeps(h: Half, t: Task, all: set<Task>, joining: bool)
    requires Orderly(h, all) && t !in h.waiting
    ensures Orderly(Rerun(h, t), all)
    ensures h.stock > 0 && Good(h, all, joining) ==> Good(Draw(Rerun(h, t)), all, joining)
    ensures h.stock == 0 ==> Covered(Rerun(h, t), all)
  {
    if t in h.woken {
      assert h.woken == (h.woken - {t}) + {t};
      assert |h.woken| == |h.woken - {t}| + 1;
    } else {
      assert h.woken - {t} == h.woken;
    }
  }

  /** A task that peeks runs again, and passes its wake-up on. */
  lemma PeekKeeps(h: Half, t: Task, all: set<Task>)
    requires Orderly(h, all) && h.lock == -1 && t !in h.waiting
    ensures Orderly(Wake(Rerun(h, t)), all)
    ensures Good(h, all, false) ==> Good(Wake(Rerun(h, t)), all, false)
  {
    RerunKeeps(h, t, all, false);
    WakeKeepsOrder(Rerun(h, t), all);
    if t in h.woken {
      assert h.woken == (h.woken - {t}) + {t};
    } else {
      assert h.woken - {t} == h.woken;
    }
  }

  lemma PlaceKeeps(h: Half, t: Task, p: nat, all: set<Task>)
    requires Orderly(h, all) && p <= |h.waiting| && t in all && t !in h.waiting && t !in h.woken
    ensures Orderly(Place(h, t, p), all)
    ensures Good(h, all, true) ==> Good(Place(h, t, p), all, false)
  {
    SpliceFacts(h.waiting, p, t);
  }

  lemma AbandonKeeps(h: Half, i: nat, all: set<Task>)
    requires Orderly(h, all) && i < |h.waiting|
    ensures Orderly(Abandon(h, i), all)
    ensures Good(h, all, false) ==> Good(Abandon(h, i), all, false)
  {
    CutFacts(h.waiting, i);
  }

  lemma {:induction false} WakeManyWakes(h: Half, n: nat, all: set<Task>)
    requires Orderly(h, all)
    ensures var g := WakeMany(h, n);
            && Orderly(g, all) && g.stock == h.stock && g.lock == h.lock
            && (n >= |h.waiting| ==> g.waiting == [])
            && (n < |h.waiting| ==> g.waiting == h.waiting[n..] && |g.woken| == |h.woken| + n)
            && (forall t :: t in g.woken ==> t in h.woken || t in h.waiting)
            && (forall t :: t in g.waiting ==> t in h.waiting)
    decreases n
  {
    if n > 0 && h.waiting != [] {
      WakeKeepsOrder(h, all);
      WakeManyWakes(Wake(h), n - 1, all);
    }
  }

  /** The first n tasks of a list. */
  function Front(s: seq<Task>, n: nat): set<Task>
    requires n <= |s|
  {
    set t | t in s[..n]
  }

  lemma FrontGrows(s: seq<Task>, n: nat)
    requires 0 < n <= |s|
    ensures Front(s, n) == {s[0]} + Front(s[1..], n - 1) && s[1..][n - 1..] == s[n..]
  {
    assert s[..n] == [s[0]] + s[1..][..n - 1];
  }

  function Counted(h: Half): nat {
    if h.lock > 0 then h.lock else 0
  }

  /** As many as were counted, as far as tasks wait. */
  function Owing(h: Half): nat {
    if Counted(h) < |h.waiting| then Counted(h) else |h.waiting|
  }

  /** The unlock wakes one waiter for each post that was counted, the first ones first, and no more. */
  lemma UnlockWakesTheCounted(h: Half)
    ensures var n := Owing(h);
            && Unlock(h).waiting == h.waiting[n..] && Unlock(h).woken == h.woken + Front(h.waiting, n)
            && Unlock(h).lock == -1 && Unlock(h).stock == h.stock
  {
    WakeManyTakesTheFirst(h, Counted(h));
  }

  lemma {:induction false} WakeManyTakesTheFirst(h: Half, n: nat)
    ensures var m := if n < |h.waiting| then n else |h.waiting|;
            && WakeMany(h, n).waiting == h.waiting[m..] && WakeMany(h, n).woken == h.woken + Front(h.waiting, m)
            && WakeMany(h, n).stock == h.stock && WakeMany(h, n).lock == h.lock
    decreases n
  {
    hide Front;
    var m := if n < |h.waiting| then n else |h.waiting|;
    if m > 0 {
      WakeManyTakesTheFirst(Wake(h), n - 1);
      FrontGrows(h.waiting, m);
    } else {
      NoFront(h.waiting);
    }
  }

  lemma NoFront(s: seq<Task>)
    ensures Front(s, 0) == {} && s[0..] == s
  {
  }

  /** There are no more waiters than tasks. */
  lemma {:induction false} NoMoreWaitersThanTasks(s: seq<Task>, all: set<Task>)
    requires Distinct(s) && forall t :: t in s ==> t in all
    ensures |s| <= |all|
    decreases |s|
  {
    if s != [] {
      var rest := s[1..];
      forall t | t in rest ensures t in all - {s[0]} {
        var i :| 0 <= i < |rest| && rest[i] == t;
        assert s[i + 1] == t;
      }
      NoMoreWaitersThanTasks(rest, all - {s[0]});
    }
  }

  /** The unlock hands on every wake-up that was counted, and a count that stopped at the
      number of tasks has lost none. */
  lemma UnlockKeeps(h: Half, all: set<Task>)
    requires Orderly(h, all) && h.lock >= 0
    ensures Orderly(Unlock(h), all) && Unlock(h).lock == -1 && Unlock(h).stock == h.stock
    ensures Good(h, all, false) ==> Good(Unlock(h), all, false)
  {
    WakeManyWakes(h, h.lock, all);
    NoMoreWaitersThanTasks(h.waiting, all);
  }

  // ---- The whole queue ----

  datatype Side = Receiving | Sending

  /** Where the task that has suspended the scheduler is, if there is one. */
  datatype Phase =
    | Free
    | Locked(t: Task, side: Side)      // before it looks at the queue again
    | Decided(t: Task, side: Side)     // it has seen that it has to wait
    | Leaving                          // about to process the posts that were counted
    | HalfOut                          // about to process the receptions

  datatype World = World(length: nat, receivers: Half, senders: Half, all: set<Task>, phase: Phase)

  datatype Step =
    | TaskSend(t: Task, overwrite: bool)
    | TaskReceive(t: Task)
    | TaskPeek(t: Task)
    | IsrSend(overwrite: bool)
    | IsrReceive
    | Enter(t: Task, side: Side)
    | Look(timedOut: bool)
    | Wait(p: nat)
    | UnlockTx
    | UnlockRx
    | Quit(side: Side, i: nat)
    | Reset

  function On(w: World, side: Side): Half {
    if side == Receiving then w.receivers else w.senders
  }

  /** A task that may run: it is on neither wait list. */
  ghost predicate Runs(w: World, t: Task) {
    t in w.all && t !in w.receivers.waiting && t !in w.senders.waiting
  }

  ghost predicate Enabled(w: World, s: Step) {
    match s
    case TaskSend(t, overwrite) => w.phase == Free && Runs(w, t) && (overwrite ==> w.length == 1)
    case TaskReceive(t) => w.phase == Free && Runs(w, t)
    case TaskPeek(t) => w.phase == Free && Runs(w, t)
    case IsrSend(overwrite) => overwrite ==> w.length == 1
    case IsrReceive => true
    case Enter(t, side) => w.phase == Free && Runs(w, t) && t !in w.receivers.woken && t !in w.senders.woken
    case Look(timedOut) => w.phase.Locked?
    case Wait(p) => w.phase.Decided? && p <= |On(w, w.phase.side).waiting|
    case UnlockTx => w.phase == Leaving
    case UnlockRx => w.phase == HalfOut
    case Quit(side, i) => w.phase == Free && i < |On(w, side).waiting|
    case Reset => w.phase == Free
  }

  /** A send that finds room, or overwrites. */
  function Send(w: World, overwrite: bool): World {
    if w.senders.stock > 0 then
      w.(receivers := Post(w.receivers, true, |w.all|), senders := Draw(w.senders))
    else if overwrite then
      w.(receivers := Post(w.receivers, false, |w.all|))
    else w
  }

  function Receive(w: World): World {
    if w.receivers.stock > 0 then
      w.(receivers := Draw(w.receivers), senders := Post(w.senders, true, |w.all|))
    else w
  }

  function Next(w: World, s: Step): World
    requires s.Wait? ==> w.phase.Decided? && s.p <= |On(w, w.phase.side).waiting|
    requires s.Quit? ==> s.i < |On(w, s.side).waiting|
  {
    match s
    case TaskSend(t, overwrite) => Send(w.(senders := Rerun(w.senders, t)), overwrite)
    case TaskReceive(t) => Receive(w.(receivers := Rerun(w.receivers, t)))
    case TaskPeek(t) =>
      var v := w.(receivers := Rerun(w.receivers, t));
      if v.receivers.stock > 0 then v.(receivers := Wake(v.receivers)) else v
    case IsrSend(overwrite) => Send(w, overwrite)
    case IsrReceive => Receive(w)
    case Enter(t, side) =>
      w.(receivers := Lock(w.receivers), senders := Lock(w.senders), phase := Locked(t, side))
    case Look(timedOut) =>
      if w.phase.Locked? && !timedOut && On(w, w.phase.side).stock == 0
      then w.(phase := Decided(w.phase.t, w.phase.side))
      else w.(phase := Leaving)
    case Wait(p) =>
      if w.phase.side == Receiving
      then w.(receivers := Place(w.receivers, w.phase.t, p), phase := Leaving)
      else w.(senders := Place(w.senders, w.phase.t, p), phase := Leaving)
    case UnlockTx => w.(receivers := Unlock(w.receivers), phase := HalfOut)
    case UnlockRx => w.(senders := Unlock(w.senders), phase := Free)
    case Quit(side, i) =>
      if side == Receiving then w.(receivers := Abandon(w.receivers, i))
      else w.(senders := Abandon(w.senders, i))
    case Reset =>
      w.(receivers := w.receivers.(stock := 0, lock := -1),
         senders := Wake(w.senders.(stock := w.length, lock := -1)))
  }

  ghost predicate Clear(w: World, t: Task) {
    && Runs(w, t) && t !in w.receivers.woken && t !in w.senders.woken
  }

  /** The locks follow the phase, and a task about to wait is not on the queue yet. */
  ghost predicate Shape(w: World) {
    && w.receivers.stock + w.senders.stock == w.length
    && Orderly(w.receivers, w.all) && Orderly(w.senders, w.all)
    && (w.receivers.lock == -1 <==> w.phase in {Free, HalfOut})
    && (w.senders.lock == -1 <==> w.phase == Free)
    && (w.phase.Locked? || w.phase.Decided? ==> Clear(w, w.phase.t))
  }

  ghost predicate Safe(w: World, side: Side) {
    Good(On(w, side), w.all, w.phase.Decided? && w.phase.side == side)
  }

  lemma SendKeeps(w: World, overwrite: bool, side: Side)
    requires Shape(w)
    ensures Shape(Send(w, overwrite))
    ensures Safe(w, side) ==> Safe(Send(w, overwrite), side)
  {
    var joining := w.phase.Decided? && w.phase.side == Receiving;
    PostKeeps(w.receivers, true, w.all, joining);
    PostKeeps(w.receivers, false, w.all, joining);
  }

  lemma ReceiveKeeps(w: World, side: Side)
    requires Shape(w)
    ensures Shape(Receive(w))
    ensures Safe(w, side) ==> Safe(Receive(w), side)
  {
    PostKeeps(w.senders, true, w.all, w.phase.Decided? && w.phase.side == Sending);
  }

  lemma TaskSendKeeps(w: World, t: Task, overwrite: bool, side: Side)
    requires Shape(w) && Enabled(w, TaskSend(t, overwrite))
    ensures Shape(Next(w, TaskSend(t, overwrite)))
    ensures Safe(w, side) ==> Safe(Next(w, TaskSend(t, overwrite)), side)
  {
    RerunKeeps(w.senders, t, w.all, false);
    PostKeeps(w.receivers, true, w.all, false);
    PostKeeps(w.receivers, false, w.all, false);
  }

  lemma TaskReceiveKeeps(w: World, t: Task, side: Side)
    requires Shape(w) && Enabled(w, TaskReceive(t))
    ensures Shape(Next(w, TaskReceive(t)))
    ensures Safe(w, side) ==> Safe(Next(w, TaskReceive(t)), side)
  {
    RerunKeeps(w.receivers, t, w.all, false);
    PostKeeps(w.senders, true, w.all, false);
  }

  lemma TaskPeekKeeps(w: World, t: Task, side: Side)
    requires Shape(w) && Enabled(w, TaskPeek(t))
    ensures Shape(Next(w, TaskPeek(t)))
    ensures Safe(w, side) ==> Safe(Next(w, TaskPeek(t)), side)
  {
    RerunKeeps(w.receivers, t, w.all, false);
    PeekKeeps(w.receivers, t, w.all);
  }

  lemma WaitKeeps(w: World, p: nat, side: Side)
    requires Shape(w) && Enabled(w, Wait(p))
    ensures Shape(Next(w, Wait(p)))
    ensures Safe(w, side) ==> Safe(Next(w, Wait(p)), side)
  {
    PlaceKeeps(On(w, w.phase.side), w.phase.t, p, w.all);
  }

  lemma QuitKeeps(w: World, from: Side, i: nat, side: Side)
    requires Shape(w) && Enabled(w, Quit(from, i))
    ensures Shape(Next(w, Quit(from, i)))
    ensures Safe(w, side) ==> Safe(Next(w, Quit(from, i)), side)
  {
    AbandonKeeps(On(w, from), i, w.all);
  }

  lemma ResetKeeps(w: World)
    requires Shape(w) && w.phase == Free
    ensures Shape(Next(w, Reset)) && Safe(Next(w, Reset), Receiving)
  {
    WakeKeepsOrder(w.senders.(stock := w.length, lock := -1), w.all);
  }

  /** Every step keeps both halves safe; only a reset can fail the senders. */
  lemma NextKeeps(w: World, s: Step, side: Side)
    requires Shape(w) && Enabled(w, s)
    ensures Shape(Next(w, s))
    ensures Safe(w, side) && (s == Reset ==> side == Receiving) ==> Safe(Next(w, s), side)
  {
    match s
    case TaskSend(t, overwrite) => TaskSendKeeps(w, t, overwrite, side);
    case TaskReceive(t) => TaskReceiveKeeps(w, t, side);
    case TaskPeek(t) => TaskPeekKeeps(w, t, side);
    case IsrSend(overwrite) => SendKeeps(w, overwrite, side);
    case IsrReceive => ReceiveKeeps(w, side);
    case Enter(t, from) =>
    case Look(timedOut) =>
    case Wait(p) => WaitKeeps(w, p, side);
    case UnlockTx => UnlockKeeps(w.receivers, w.all);
    case UnlockRx => UnlockKeeps(w.senders, w.all);
    case Quit(from, i) => QuitKeeps(w, from, i, side);
    case Reset => ResetKeeps(w);
  }

  ghost predicate Possible(w: World, steps: seq<Step>)
    decreases |steps|
  {
    steps == [] || (Enabled(w, steps[0]) && Possible(Next(w, steps[0]), steps[1..]))
  }

  ghost function Run(w: World, steps: seq<Step>): World
    requires Possible(w, steps)
    decreases |steps|
  {
    if steps == [] then w else Run(Next(w, steps[0]), steps[1..])
  }

  ghost predicate Initial(w: World) {
    && w.phase == Free
    && w.receivers == Half(0, [], {}, -1)
    && w.senders == Half(w.length, [], {}, -1)
  }

  lemma {:induction false} RunKeeps(w: World, steps: seq<Step>, side: Side)
    requires Shape(w) && Safe(w, side) && Possible(w, steps)
    requires side == Sending ==> Reset !in steps
    ensures Shape(Run(w, steps)) && Safe(Run(w, steps), side)
    decreases |steps|
  {
    if steps != [] {
      NextKeeps(w, steps[0], side);
      RunKeeps(Next(w, steps[0]), steps[1..], side);
    }
  }

  /** No wake-up is lost: over every interleaving, if the queue is unlocked and tasks wait to
      receive, every message has a woken receiver that has not run yet. While it is locked
      the posts counted make up the difference, or the count is full. */
  lemma NoReceiverIsForgotten(w: World, steps: seq<Step>)
    requires Initial(w) && Possible(w, steps)
    ensures var v := Run(w, steps);
            v.receivers.waiting != [] ==>
              if v.receivers.lock == -1 then v.receivers.stock <= |v.receivers.woken|
              else v.receivers.lock == |v.all| || v.receivers.stock <= |v.receivers.woken| + v.receivers.lock
  {
    RunKeeps(w, steps, Receiving);
  }

  /** The mirror claim for free places, if the queue is never reset. */
  lemma NoSenderIsForgotten(w: World, steps: seq<Step>)
    requires Initial(w) && Possible(w, steps) && Reset !in steps
    ensures var v := Run(w, steps);
            v.senders.waiting != [] ==>
              if v.senders.lock == -1 then v.senders.stock <= |v.senders.woken|
              else v.senders.lock == |v.all| || v.senders.stock <= |v.senders.woken| + v.senders.lock
  {
    RunKeeps(w, steps, Sending);
  }

  /** Once every woken receiver has run and nobody holds the lock, a task that still waits to
      receive waits on an empty queue. */
  lemma SleepersMeanEmpty(w: World, steps: seq<Step>)
    requires Initial(w) && Possible(w, steps)
    ensures var v := Run(w, steps);
            v.phase == Free && v.receivers.woken == {} && v.receivers.waiting != [] ==> v.receivers.stock == 0
  {
    RunKeeps(w, steps, Receiving);
  }

  /** The signed 8-bit counts never reach the value their assertion forbids. */
  lemma CountsFit(w: World, steps: seq<Step>)
    requires Initial(w) && Possible(w, steps) && |w.all| < 127
    ensures -1 <= Run(w, steps).receivers.lock < 127 && -1 <= Run(w, steps).senders.lock < 127
  {
    RunKeeps(w, steps, Receiving);
    AllIsFixed(w, steps);
  }

  lemma {:induction false} AllIsFixed(w: World, steps: seq<Step>)
    requires Possible(w, steps)
    ensures Run(w, steps).all == w.all
    decreases |steps|
  {
    if steps != [] {
      AllIsFixed(Next(w, steps[0]), steps[1..]);
    }
  }

  /** A reset wakes one sender, though it frees every place: the senders stay covered exactly
      if at most one waits, or the others that are on their way are enough for the places. */
  lemma ResetCoversSendersIff(w: World)
    requires Shape(w) && w.phase == Free
    ensures Safe(Next(w, Reset), Sending) <==>
            |w.senders.waiting| <= 1 || w.length <= |w.senders.woken| + 1
  {
    var h := w.senders.(stock := w.length, lock := -1);
    WakeKeepsOrder(h, w.all);
  }

  /** Two senders wait on a full queue of length 2, and a reset frees both places but wakes one. */
  lemma ResetLeavesASenderAsleep()
    ensures var w := World(2, Half(2, [], {}, -1), Half(0, [1, 2], {}, -1), {1, 2}, Free);
            && Shape(w) && Safe(w, Sending) && Enabled(w, Reset)
            && var v := Next(w, Reset);
               v.senders.waiting == [2] && v.senders.woken == {1} && v.senders.stock == 2 && !Safe(v, Sending)
  {
    assert |{1, 2}| == 2;
    assert |{1}| == 1;
  }

  // ---- No wake-up without a reason ----

  /** How many wake-ups a step gives reason for on one side: a message or a free place comes, a
      reader passes its wake-up on, a reset empties the queue. */
  function Reasons(w: World, s: Step, side: Side): nat {
    match s
    case TaskSend(t, overwrite) => if side == Receiving && (w.senders.stock > 0 || overwrite) then 1 else 0
    case IsrSend(overwrite) => if side == Receiving && (w.senders.stock > 0 || overwrite) then 1 else 0
    case TaskReceive(t) => if side == Sending && w.receivers.stock > 0 then 1 else 0
    case IsrReceive => if side == Sending && w.receivers.stock > 0 then 1 else 0
    case TaskPeek(t) => if side == Receiving && w.receivers.stock > 0 then 1 else 0
    case Reset => if side == Sending then 1 else 0
    case _ => 0
  }

  /** The step changes the wait list of the side in another way: a task joins it, or leaves it
      for a reason of its own. */
  predicate Rearranges(w: World, s: Step, side: Side) {
    (s.Wait? && w.phase.Decided? && w.phase.side == side) || (s.Quit? && s.side == side)
  }

  /** How many tasks the step wakes. */
  function Wakeups(w: World, s: Step, side: Side): int
    requires s.Wait? ==> w.phase.Decided? && s.p <= |On(w, w.phase.side).waiting|
    requires s.Quit? ==> s.i < |On(w, s.side).waiting|
  {
    if Rearranges(w, s, side) then 0 else |On(w, side).waiting| - |On(Next(w, s), side).waiting|
  }

  /** The task that runs again in the step. */
  function Runner(s: Step, side: Side): set<Task> {
    match s
    case TaskSend(t, overwrite) => if side == Sending then {t} else {}
    case TaskReceive(t) => if side == Receiving then {t} else {}
    case TaskPeek(t) => if side == Receiving then {t} else {}
    case _ => {}
  }

  /** The first n waiters are off the list and woken, run runs, and there was reason for each. */
  ghost predicate Took(h: Half, g: Half, n: int, run: set<Task>, reasons: nat) {
    && 0 <= n <= |h.waiting| && g.waiting == h.waiting[n..]
    && g.woken == h.woken - run + Front(h.waiting, n)
    && n + Counted(g) <= reasons + Counted(h)
  }

  lemma NoneTook(h: Half, g: Half, run: set<Task>, reasons: nat)
    requires g.waiting == h.waiting && g.woken == h.woken - run && Counted(g) <= reasons + Counted(h)
    ensures Took(h, g, 0, run, reasons)
  {
    NoFront(h.waiting);
  }

  lemma WakeTook(h: Half, g: Half, run: set<Task>, reasons: nat)
    requires h.waiting != [] && g.waiting == h.waiting[1..] && g.woken == h.woken - run + {h.waiting[0]}
    requires Counted(g) < reasons + Counted(h)
    ensures Took(h, g, 1, run, reasons)
  {
    FrontGrows(h.waiting, 1);
    NoFront(h.waiting[1..]);
  }

  /** A post wakes one waiter if the half is unlocked, and none if it is locked. */
  lemma PostTook(h: Half, grow: bool, tasks: nat)
    requires h.lock >= -1
    ensures var g := Post(h, grow, tasks); Took(h, g, |h.waiting| - |g.waiting|, {}, 1)
  {
    hide Took;
    var g := Post(h, grow, tasks);
    if h.lock == -1 && h.waiting != [] {
      WakeTook(h, g, {}, 1);
    } else {
      NoneTook(h, g, {}, 1);
    }
  }

  lemma UnlockTook(h: Half)
    ensures Took(h, Unlock(h), |h.waiting| - |Unlock(h).waiting|, {}, 0)
  {
    hide Unlock, Front;
    UnlockWakesTheCounted(h);
  }

  lemma PeekTook(h: Half, t: Task)
    requires h.lock == -1
    ensures var g := if h.stock > 0 then Wake(Rerun(h, t)) else Rerun(h, t);
            Took(h, g, |h.waiting| - |g.waiting|, {t}, if h.stock > 0 then 1 else 0)
  {
    hide Took;
    var g := if h.stock > 0 then Wake(Rerun(h, t)) else Rerun(h, t);
    if h.stock > 0 && h.waiting != [] {
      WakeTook(h, g, {t}, 1);
    } else {
      NoneTook(h, g, {t}, if h.stock > 0 then 1 else 0);
    }
  }

  lemma ResetTook(h: Half, length: nat)
    ensures var g := Wake(h.(stock := length, lock := -1)); Took(h, g, |h.waiting| - |g.waiting|, {}, 1)
  {
    hide Took;
    var g := Wake(h.(stock := length, lock := -1));
    if h.waiting != [] {
      WakeTook(h, g, {}, 1);
    } else {
      NoneTook(h, g, {}, 1);
    }
  }

  lemma SendTook(w: World, overwrite: bool)
    requires w.receivers.lock >= -1 && w.senders.lock >= -1
    ensures var v := Send(w, overwrite);
            && Took(w.receivers, v.receivers, |w.receivers.waiting| - |v.receivers.waiting|, {},
                    if w.senders.stock > 0 || overwrite then 1 else 0)
            && Took(w.senders, v.senders, 0, {}, 0)
  {
    hide Took, Post;
    PostTook(w.receivers, true, |w.all|);
    PostTook(w.receivers, false, |w.all|);
    NoneTook(w.senders, Send(w, overwrite).senders, {}, 0);
    NoneTook(w.receivers, w.receivers, {}, 0);
  }

  lemma ReceiveTook(w: World)
    requires w.receivers.lock >= -1 && w.senders.lock >= -1
    ensures var v := Receive(w);
            && Took(w.senders, v.senders, |w.senders.waiting| - |v.senders.waiting|, {},
                    if w.receivers.stock > 0 then 1 else 0)
            && Took(w.receivers, v.receivers, 0, {}, 0)
  {
    hide Took, Post;
    PostTook(w.senders, true, |w.all|);
    NoneTook(w.receivers, Receive(w).receivers, {}, 0);
    NoneTook(w.senders, w.senders, {}, 0);
  }

  /** A task that runs again before the half is left alone. */
  lemma RerunTook(h: Half, g: Half, t: Task)
    requires Took(Rerun(h, t), g, 0, {}, 0)
    ensures Took(h, g, 0, {t}, 0)
  {
    NoFront(h.waiting);
  }

  lemma LocksInRange(w: World)
    requires Shape(w)
    ensures w.receivers.lock >= -1 && w.senders.lock >= -1
    ensures w.phase == Free ==> w.receivers.lock == -1 && w.senders.lock == -1
  {
  }

  /** Events take waiters off the front of a list and wake exactly those, and each wake-up has a
      reason, now or counted before. */
  lemma EventsTakeTheFirst(w: World, s: Step, side: Side)
    requires Shape(w) && Enabled(w, s) && !Rearranges(w, s, side)
    ensures Took(On(w, side), On(Next(w, s), side), Wakeups(w, s, side), Runner(s, side), Reasons(w, s, side))
  {
    hide Shape, Took, Send, Receive, Unlock, Wake, Place, Abandon;
    LocksInRange(w);
    var h := On(w, side);
    match s
    case TaskSend(t, overwrite) =>
      SendTook(w.(senders := Rerun(w.senders, t)), overwrite);
      RerunTook(w.senders, Next(w, s).senders, t);
      SameLength(w.senders, Next(w, s).senders, {t}, 0);
    case IsrSend(overwrite) => SendTook(w, overwrite); SameLength(w.senders, Next(w, s).senders, {}, 0);
    case TaskReceive(t) =>
      ReceiveTook(w.(receivers := Rerun(w.receivers, t)));
      RerunTook(w.receivers, Next(w, s).receivers, t);
      SameLength(w.receivers, Next(w, s).receivers, {t}, 0);
    case IsrReceive => ReceiveTook(w); SameLength(w.receivers, Next(w, s).receivers, {}, 0);
    case TaskPeek(t) => PeekTook(w.receivers, t); NoneTook(w.senders, w.senders, {}, 0);
    case Reset => ResetTook(w.senders, w.length); NoneTook(w.receivers, Next(w, s).receivers, {}, 0);
    case UnlockTx => UnlockTook(w.receivers); NoneTook(w.senders, w.senders, {}, 0);
    case UnlockRx => UnlockTook(w.senders); NoneTook(w.receivers, w.receivers, {}, 0);
    case Enter(t, from) => NoneTook(h, On(Next(w, s), side), {}, 0);
    case Look(timedOut) => NoneTook(h, h, {}, 0);
    case Wait(p) => NoneTook(h, h, {}, 0);
    case Quit(from, i) => NoneTook(h, h, {}, 0);
  }

  lemma SameLength(h: Half, g: Half, run: set<Task>, reasons: nat)
    requires Took(h, g, 0, run, reasons)
    ensures |g.waiting| == |h.waiting|
  {
  }

  ghost function TotalWakeups(w: World, steps: seq<Step>, side: Side): int
    requires Possible(w, steps)
    decreases |steps|
  {
    if steps == [] then 0 else Wakeups(w, steps[0], side) + TotalWakeups(Next(w, steps[0]), steps[1..], side)
  }

  ghost function TotalReasons(w: World, steps: seq<Step>, side: Side): nat
    requires Possible(w, steps)
    decreases |steps|
  {
    if steps == [] then 0 else Reasons(w, steps[0], side) + TotalReasons(Next(w, steps[0]), steps[1..], side)
  }

  lemma {:induction false} RunWakes(w: World, steps: seq<Step>, side: Side)
    requires Shape(w) && Safe(w, Receiving) && Possible(w, steps)
    ensures 0 <= TotalWakeups(w, steps, side)
    ensures TotalWakeups(w, steps, side) + Counted(On(Run(w, steps), side)) <=
            TotalReasons(w, steps, side) + Counted(On(w, side))
    decreases |steps|
  {
    hide Shape, Safe, Wakeups, Reasons, Counted, Post, Unlock, Wake;
    if steps != [] {
      NextKeeps(w, steps[0], Receiving);
      StepWakes(w, steps[0], side);
      RunWakes(Next(w, steps[0]), steps[1..], side);
    }
  }

  lemma StepWakes(w: World, s: Step, side: Side)
    requires Shape(w) && Enabled(w, s)
    ensures 0 <= Wakeups(w, s, side)
    ensures Wakeups(w, s, side) + Counted(On(Next(w, s), side)) <= Reasons(w, s, side) + Counted(On(w, side))
  {
    hide Shape, Post, Unlock, Wake, Front;
    if !Rearranges(w, s, side) {
      EventsTakeTheFirst(w, s, side);
    }
  }

  /** No task is woken for nothing: over every interleaving the wake-ups on one side, and those
      still counted, are no more than there were reasons. */
  lemma NoSpuriousWakeup(w: World, steps: seq<Step>, side: Side)
    requires Initial(w) && Possible(w, steps)
    ensures TotalWakeups(w, steps, side) + Counted(On(Run(w, steps), side)) <= TotalReasons(w, steps, side)
  {
    RunWakes(w, steps, side);
  }

  // ---- How a task comes onto a wait list, and off it ----

  /** The steps of a task that suspends the scheduler, locks the queue and looks again. */
  function LookingIn(t: Task, side: Side, timedOut: bool): seq<Step> {
    [Enter(t, side), Look(timedOut), UnlockTx, UnlockRx]
  }

  function Blocking(t: Task, side: Side, p: nat): seq<Step> {
    [Enter(t, side), Look(false), Wait(p), UnlockTx, UnlockRx]
  }

  lemma OneFirst(w: World, s: Step, rest: seq<Step>)
    requires Enabled(w, s) && Possible(Next(w, s), rest)
    ensures Possible(w, [s] + rest) && Run(w, [s] + rest) == Run(Next(w, s), rest)
  {
    hide Next, Enabled;
    assert ([s] + rest)[1..] == rest;
  }

  lemma NoMore(w: World)
    ensures Possible(w, []) && Run(w, []) == w
  {
  }

  lemma UnlockUncounted(h: Half)
    requires h.lock == 0
    ensures Unlock(h) == h.(lock := -1)
  {
  }

  /** If there is something, or the time is over, the task leaves again, and nothing has changed. */
  lemma LookingChangesNothing(w: World, t: Task, side: Side, timedOut: bool)
    requires Shape(w) && Enabled(w, Enter(t, side)) && (timedOut || On(w, side).stock > 0)
    ensures Possible(w, LookingIn(t, side, timedOut)) && Run(w, LookingIn(t, side, timedOut)) == w
  {
    hide Unlock;
    var w1 := Next(w, Enter(t, side));
    var w2 := Next(w1, Look(timedOut));
    UnlockUncounted(w2.receivers);
    UnlockUncounted(w2.senders);
    var w3 := Next(w2, UnlockTx);
    var w4 := Next(w3, UnlockRx);
    assert w4 == w;
    hide Next, Enabled, Shape;
    NoMore(w4);
    OneFirst(w3, UnlockRx, []);
    OneFirst(w2, UnlockTx, [UnlockRx]);
    OneFirst(w1, Look(timedOut), [UnlockTx, UnlockRx]);
    OneFirst(w, Enter(t, side), [Look(timedOut), UnlockTx, UnlockRx]);
    InFive(t, side, timedOut, 0);
  }

  lemma InFive(t: Task, side: Side, timedOut: bool, p: nat)
    ensures [Look(timedOut)] + [UnlockTx, UnlockRx] == [Look(timedOut), UnlockTx, UnlockRx]
    ensures [Enter(t, side)] + [Look(timedOut), UnlockTx, UnlockRx] == LookingIn(t, side, timedOut)
    ensures [UnlockTx] + [UnlockRx] == [UnlockTx, UnlockRx] && [UnlockRx] + [] == [UnlockRx]
    ensures [Wait(p)] + [UnlockTx, UnlockRx] == [Wait(p), UnlockTx, UnlockRx]
    ensures [Look(false)] + [Wait(p), UnlockTx, UnlockRx] == [Look(false), Wait(p), UnlockTx, UnlockRx]
    ensures [Enter(t, side)] + [Look(false), Wait(p), UnlockTx, UnlockRx] == Blocking(t, side, p)
  {
  }

  /** The world with a wait list of a side replaced. */
  function WithWaiting(w: World, side: Side, waiting: seq<Task>): World {
    if side == Receiving then w.(receivers := w.receivers.(waiting := waiting))
    else w.(senders := w.senders.(waiting := waiting))
  }

  /** If there is nothing, and time is left, the task ends up on the list, in its place, and nothing
      else has changed; and if it leaves the list later, everything is as it was before. */
  lemma BlockingJoins(w: World, t: Task, side: Side, p: nat)
    requires Shape(w) && Enabled(w, Enter(t, side))
    requires On(w, side).stock == 0 && p <= |On(w, side).waiting|
    ensures Possible(w, Blocking(t, side, p))
    ensures var v := Run(w, Blocking(t, side, p));
            && v == WithWaiting(w, side, Splice(On(w, side).waiting, p, t))
            && Enabled(v, Quit(side, p)) && Next(v, Quit(side, p)) == w
  {
    hide Next, Shape, Splice, Possible, Run;
    BlockingStates(w, t, side, p);
    InFive(t, side, false, p);
    var w1 := Next(w, Enter(t, side));
    var w2 := Next(w1, Look(false));
    var w3 := Next(w2, Wait(p));
    var w4 := Next(w3, UnlockTx);
    var w5 := Next(w4, UnlockRx);
    NoMore(w5);
    OneFirst(w4, UnlockRx, []);
    OneFirst(w3, UnlockTx, [UnlockRx]);
    OneFirst(w2, Wait(p), [UnlockTx, UnlockRx]);
    OneFirst(w1, Look(false), [Wait(p), UnlockTx, UnlockRx]);
    OneFirst(w, Enter(t, side), [Look(false), Wait(p), UnlockTx, UnlockRx]);
    LeavingUndoes(w, side, p, t);
  }

  lemma BlockingStates(w: World, t: Task, side: Side, p: nat)
    requires Shape(w) && Enabled(w, Enter(t, side)) && On(w, side).stock == 0 && p <= |On(w, side).waiting|
    ensures var w1 := Next(w, Enter(t, side));
            && Enabled(w1, Look(false))
            && var w2 := Next(w1, Look(false));
               && Enabled(w2, Wait(p))
               && var w3 := Next(w2, Wait(p));
                  && Enabled(w3, UnlockTx)
                  && var w4 := Next(w3, UnlockTx);
                     && Enabled(w4, UnlockRx)
                     && Next(w4, UnlockRx) == WithWaiting(w, side, Splice(On(w, side).waiting, p, t))
  {
    hide Unlock, Splice, Orderly;
    var w3 := Next(Next(Next(w, Enter(t, side)), Look(false)), Wait(p));
    UnlockUncounted(w3.receivers);
    UnlockUncounted(w3.senders);
  }

  lemma LeavingUndoes(w: World, side: Side, p: nat, t: Task)
    requires w.phase == Free && p <= |On(w, side).waiting|
    ensures var v := WithWaiting(w, side, Splice(On(w, side).waiting, p, t));
            Enabled(v, Quit(side, p)) && Next(v, Quit(side, p)) == w
  {
    hide Splice, Cut;
    CutUndoesSplice(On(w, side).waiting, p, t);
  }

  lemma CutUndoesSplice(s: seq<Task>, p: nat, t: Task)
    requires p <= |s|
    ensures |Splice(s, p, t)| == |s| + 1 && Cut(Splice(s, p, t), p) == s
  {
  }

  // ---- The lists add up ----

  /** What a step adds to a list apart from events. */
  function Joins(w: World, s: Step, side: Side): int {
    if s.Wait? && w.phase.Decided? && w.phase.side == side then 1
    else if s.Quit? && s.side == side then -1
    else 0
  }

  ghost function TotalJoins(w: World, steps: seq<Step>, side: Side): int
    requires Possible(w, steps)
    decreases |steps|
  {
    if steps == [] then 0 else Joins(w, steps[0], side) + TotalJoins(Next(w, steps[0]), steps[1..], side)
  }

  lemma StepAddsUp(w: World, s: Step, side: Side)
    requires Enabled(w, s)
    ensures |On(Next(w, s), side).waiting| == |On(w, side).waiting| + Joins(w, s, side) - Wakeups(w, s, side)
  {
    hide Post, Unlock, Wake;
  }

  /** Over every run, as many wait as waited before, with those that have joined, and without those
      that have left by themselves or been woken. */
  lemma {:induction false} WaitersAddUp(w: World, steps: seq<Step>, side: Side)
    requires Possible(w, steps)
    ensures |On(Run(w, steps), side).waiting| ==
            |On(w, side).waiting| + TotalJoins(w, steps, side) - TotalWakeups(w, steps, side)
    decreases |steps|
  {
    hide Joins, Wakeups, Post, Unlock, Wake;
    if steps != [] {
      StepAddsUp(w, steps[0], side);
      WaitersAddUp(Next(w, steps[0]), steps[1..], side);
    }
  }
}
