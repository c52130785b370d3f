/**
  Waiting against the clock in tasks.c: the timeout bookkeeping that blocking calls use
  when they are woken without getting what they wait for, and periodic delays. Both
  are compared with what they mean on unbounded time.
*/
module Timeouts {
  import opened Ticks

  // ---- xTaskCheckForTimeOut ----

  /** TimeOut_t and the caller's remaining wait. */
  datatype Wait = Wait(overflows: nat, entry: nat, left: nat)

  function Started(w: Wait): nat {
    Abs(w.overflows, w.entry)
  }

  ghost predicate Sound(w: Wait) {
    w.entry < N && w.left < N
  }

  /** The check at a given count of overflows and ticks: the verdict and the updated wait. */
  function Check(w: Wait, overflows: nat, tick: nat, aborted: bool): (bool, Wait)
    requires w.entry < N && tick < N
  {
    var elapsed := Minus(tick, w.entry);
    if aborted then (true, w)
    else if w.left == MAX_DELAY then (false, w)
    else if overflows != w.overflows && tick >= w.entry then (true, w.(left := 0))
    else if elapsed < w.left then (false, Wait(overflows, tick, w.left - elapsed))
    else (true, w.(left := 0))
  }

  class TimeOut {
    var overflowCount: nat
    var timeOnEntering: nat

    ghost function State(left: nat): Wait
      reads this
    {
      Wait(overflowCount, timeOnEntering, left)
    }

    /** vTaskInternalSetTimeOutState */
    method Set(overflows: nat, tick: nat)
      modifies this
      ensures overflowCount == overflows && timeOnEntering == tick
    {
      overflowCount := overflows;
      timeOnEntering := tick;
    }

    /** xTaskCheckForTimeOut */
    method CheckForTimeOut(overflows: nat, tick: nat, aborted: bool, ticksToWait: nat)
      returns (timedOut: bool, remaining: nat)
      requires timeOnEntering < N && tick < N
      modifies this
      ensures (timedOut, State(remaining)) == Check(old(State(ticksToWait)), overflows, tick, aborted)
    {
      var elapsed := Minus(tick, timeOnEntering);
      timedOut, remaining := true, ticksToWait;
      if aborted {
      } else if ticksToWait == MAX_DELAY {
        timedOut := false;
      } else if overflows != overflowCount && tick >= timeOnEntering {
        remaining := 0;
      } else if elapsed < ticksToWait {
        remaining := ticksToWait - elapsed;
        Set(overflows, tick);
        timedOut := false;
      } else {
        remaining := 0;
      }
    }
  }

  /** A finite wait is reported over exactly when its time has come, unless the check comes
      more than one epoch late, at a tick before the entry tick, and less than the wait past
      it in tick arithmetic. */
  lemma CheckIsExactIff(w: Wait, overflows: nat, tick: nat)
    requires Sound(w) && w.left < MAX_DELAY && tick < N && Started(w) <= Abs(overflows, tick)
    ensures var late := overflows >= w.overflows + 2 && tick < w.entry && Minus(tick, w.entry) < w.left;
            (Check(w, overflows, tick, false).0 <==> Abs(overflows, tick) >= Started(w) + w.left) <==> !late
  {
  }

  /** Entered one tick before the counter wraps, with 2 ticks to wait, and first checked a whole
      epoch and one tick later: the wait is long over, and the check does not notice. */
  lemma LateCheckMisses()
    ensures var w := Wait(0, N - 1, 2);
            Abs(2, 0) >= Started(w) + w.left && !Check(w, 2, 0, false).0
  {
  }

  /** As long as it is not over, entry time and remaining wait add up to the same end. */
  lemma CheckKeepsTheEnd(w: Wait, overflows: nat, tick: nat)
    requires Sound(w) && w.left < MAX_DELAY && tick < N && Started(w) <= Abs(overflows, tick)
    requires overflows <= w.overflows + 1
    ensures var (over, v) := Check(w, overflows, tick, false);
            && (over <==> Abs(overflows, tick) >= Started(w) + w.left)
            && (over ==> v.left == 0)
            && (!over ==> Sound(v) && 0 < v.left <= w.left && v.overflows == overflows && v.entry == tick
                          && Started(v) + v.left == Started(w) + w.left)
  {
  }

  /** When a blocking call looks at the clock. */
  datatype Moment = Moment(overflows: nat, tick: nat)

  ghost predicate InTime(w: Wait, ms: seq<Moment>) {
    && (forall i :: 0 <= i < |ms| ==> ms[i].tick < N)
    && (ms != [] ==> Started(w) <= Abs(ms[0].overflows, ms[0].tick) && ms[0].overflows <= w.overflows + 1)
    && (forall i :: 0 < i < |ms| ==>
          && Abs(ms[i - 1].overflows, ms[i - 1].tick) <= Abs(ms[i].overflows, ms[i].tick)
          && ms[i].overflows <= ms[i - 1].overflows + 1)
  }

  /** How many checks in a row say that the wait is not over, and the wait then left. */
  function Poll(w: Wait, ms: seq<Moment>): (nat, Wait)
    requires w.entry < N && forall i :: 0 <= i < |ms| ==> ms[i].tick < N
    decreases |ms|
  {
    if ms == [] then (0, w)
    else
      var c := Check(w, ms[0].overflows, ms[0].tick, false);
      if c.0 then (0, c.1)
      else
        var r := Poll(c.1, ms[1..]);
        (r.0 + 1, r.1)
  }

  lemma RestIsInTime(w: Wait, v: Wait, ms: seq<Moment>)
    requires InTime(w, ms) && ms != []
    requires Started(v) == Abs(ms[0].overflows, ms[0].tick) && v.overflows == ms[0].overflows
    ensures InTime(v, ms[1..])
  {
    var rest := ms[1..];
    assert forall i :: 0 <= i < |rest| ==> rest[i] == ms[i + 1];
  }

  /** Over any sequence of checks, each at most one epoch after the one before, the first to
      report a timeout is the first made at or after start + wait. */
  lemma {:induction false} PollIsExact(w: Wait, ms: seq<Moment>)
    requires Sound(w) && w.left < MAX_DELAY && InTime(w, ms)
    ensures var (n, v) := Poll(w, ms);
            && n <= |ms|
            && (forall i :: 0 <= i < n ==> Abs(ms[i].overflows, ms[i].tick) < Started(w) + w.left)
            && (n < |ms| ==> Abs(ms[n].overflows, ms[n].tick) >= Started(w) + w.left)
            && (n == |ms| ==> Started(v) + v.left == Started(w) + w.left)
    decreases |ms|
  {
    hide Check, Abs;
    if ms != [] {
      CheckKeepsTheEnd(w, ms[0].overflows, ms[0].tick);
      var (over, v) := Check(w, ms[0].overflows, ms[0].tick, false);
      if !over {
        RestIsInTime(w, v, ms);
        PollIsExact(v, ms[1..]);
        var n := Poll(v, ms[1..]).0;
        assert forall i :: 0 < i < n + 1 ==> ms[i] == ms[1..][i - 1];
      }
    }
  }

  // ---- xTaskDelayUntil ----

  /** The new previous wake time, whether to block, and for how many ticks. */
  function DelayUntil(prev: nat, increment: nat, tick: nat): (nat, bool, nat)
    requires prev < N && increment < N && tick < N
  {
    var wake := Plus(prev, increment);
    var block := if tick < prev then wake < prev && wake > tick else wake < prev || wake > tick;
    (wake, block, Minus(wake, tick))
  }

  /** The call blocks exactly if the next wake time lies ahead, unless it comes an epoch or more
      late and less than the increment past the previous wake time in tick arithmetic, or comes
      before the previous wake time and not so. */
  lemma DelayUntilIsExactIff(epoch: nat, prev: nat, increment: nat, overflows: nat, tick: nat)
    requires prev < N && 0 < increment < N && tick < N
    ensures var p, now, within := Abs(epoch, prev), Abs(overflows, tick), Minus(tick, prev) < increment;
            var right := if now < p then within else if p + N <= now then !within else true;
            (DelayUntil(prev, increment, tick).1 <==> p + increment > now) <==> right
  {
  }

  /** Called a whole turn and one tick late with an increment of 2, it blocks all the same. */
  lemma LateCallBlocks()
    ensures Abs(0, 0) + 2 < Abs(1, 1) && DelayUntil(0, 2, 1).1
  {
  }

  /** A task that has delayed until 10 and is resumed at 5 calls again with an increment of 10:
      the next wake time is 20, and the call does not block. */
  lemma EarlyCallReturns()
    ensures Abs(0, 10) + 10 > Abs(0, 5) && !DelayUntil(10, 10, 5).1
  {
  }

  class PeriodicTask {
    var previousWake: nat      // *pxPreviousWakeTime

    /** xTaskDelayUntil, up to prvAddCurrentTaskToDelayedList. */
    method Delay(increment: nat, tick: nat) returns (block: bool, ticks: nat)
      requires previousWake < N && increment < N && tick < N
      modifies this
      ensures (previousWake, block, ticks) == DelayUntil(old(previousWake), increment, tick)
    {
      var wake := Plus(previousWake, increment);
      block := false;
      if tick < previousWake {
        if wake < previousWake && wake > tick {
          block := true;
        }
      } else {
        if wake < previousWake || wake > tick {
          block := true;
        }
      }
      previousWake := wake;
      ticks := Minus(wake, tick);
    }
  }

  /** A blocking call blocks for exactly the ticks that remain, so it wakes on schedule. */
  lemma DelayUntilWakesOnSchedule(epoch: nat, prev: nat, increment: nat, overflows: nat, tick: nat)
    requires prev < N && 0 < increment < N && tick < N
    requires Abs(epoch, prev) <= Abs(overflows, tick) < Abs(epoch, prev) + N
    ensures var (wake, block, ticks) := DelayUntil(prev, increment, tick);
            && (block <==> Abs(overflows, tick) < Abs(epoch, prev) + increment)
            && (block ==> 0 < ticks < N && Abs(overflows, tick) + ticks == Abs(epoch, prev) + increment)
            && wake == Plus(prev, increment)
  {
  }

  /** A loop that works for works[k] ticks and then delays until its next period: the absolute
      times at which its calls return, and the stored wake time after the last of them. */
  function Periods(now: nat, prev: nat, increment: nat, works: seq<nat>): (seq<nat>, nat)
    requires prev < N && 0 < increment < N
    decreases |works|
  {
    if works == [] then ([], prev)
    else
      var t := now + works[0];
      var (wake, block, ticks) := DelayUntil(prev, increment, t % N);
      var back := if block then t + ticks else t;
      var r := Periods(back, wake, increment, works[1..]);
      ([back] + r.0, r.1)
  }

  lemma WrappedTime(t: nat)
    ensures t == Abs(t / N, t % N) && t % N < N
  {
  }

  lemma Scaled(k: nat, increment: nat)
    ensures (k + 1) * increment == increment + k * increment
  {
  }

  lemma WrapOnce(p: nat, increment: nat)
    requires increment < N
    ensures Plus(p % N, increment) == (p + increment) % N
  {
    hide Plus;
    WrapTwice(p, increment);
  }

  function Marks(start: int, increment: nat, n: nat): (r: seq<int>)
    ensures |r| == n
    decreases n
  {
    if n == 0 then [] else [start + increment] + Marks(start + increment, increment, n - 1)
  }

  lemma {:induction false} MarkAt(start: int, increment: nat, n: nat, k: nat)
    requires k < n
    ensures Marks(start, increment, n)[k] == start + (k + 1) * increment
    decreases n
  {
    if k > 0 {
      MarkAt(start + increment, increment, n - 1, k - 1);
      Scaled(k, increment);
    }
  }

  /** The first return of a call whose work fits in the period is at the next mark. */
  lemma OnePeriod(start: nat, increment: nat, work: nat)
    requires work < increment < N
    ensures var (wake, block, ticks) := DelayUntil(start % N, increment, (start + work) % N);
            && wake == (start + increment) % N
            && block && start + work + ticks == start + increment
  {
    hide DelayUntil;
    WrappedTime(start);
    WrappedTime(start + work);
    DelayUntilWakesOnSchedule(start / N, start % N, increment, (start + work) / N, (start + work) % N);
    WrapOnce(start, increment);
  }

  /** A periodic task whose work always fits in the period runs without drift: its calls
      return at the marks of the period, however often the counter wraps. */
  lemma {:induction false} NoDrift(start: nat, increment: nat, works: seq<nat>)
    requires 0 < increment < N && forall i :: 0 <= i < |works| ==> works[i] < increment
    ensures Periods(start, start % N, increment, works).0 == Marks(start, increment, |works|)
    decreases |works|
  {
    hide DelayUntil;
    if works != [] {
      OnePeriod(start, increment, works[0]);
      NoDrift(start + increment, increment, works[1..]);
    }
  }

  /** When a call made at t returns, if the previous wake time is p and p <= t < p + N. */
  function Later(t: nat, mark: nat): nat {
    if t < mark then mark else t
  }

  /** No call comes a turn of the counter after the previous wake time. */
  ghost predicate NeverATurnLate(now: nat, p: nat, increment: nat, works: seq<nat>)
    decreases |works|
  {
    works == [] ||
    (var t := now + works[0]; t < p + N && NeverATurnLate(Later(t, p + increment), p + increment, increment, works[1..]))
  }

  /** The later of each arrival and its mark. */
  function Schedule(now: nat, p: nat, increment: nat, works: seq<nat>): (r: seq<nat>)
    ensures |r| == |works|
    decreases |works|
  {
    if works == [] then []
    else
      var back := Later(now + works[0], p + increment);
      [back] + Schedule(back, p + increment, increment, works[1..])
  }

  /** One call with the previous wake time in the past, and by less than a turn. */
  lemma OneCall(p: nat, increment: nat, t: nat)
    requires 0 < increment < N && p <= t < p + N
    ensures var (wake, block, ticks) := DelayUntil(p % N, increment, t % N);
            wake == (p + increment) % N && (if block then t + ticks else t) == Later(t, p + increment)
  {
    hide DelayUntil;
    WrappedTime(p);
    WrappedTime(t);
    DelayUntilWakesOnSchedule(p / N, p % N, increment, t / N, t % N);
    WrapOnce(p, increment);
  }

  /** Work that takes longer than a period is caught up with: whatever the works are, each call
      returns at its mark, or at once if that has passed. */
  lemma {:induction false} LateWorkIsCaughtUp(now: nat, p: nat, increment: nat, works: seq<nat>)
    requires 0 < increment < N && p <= now && NeverATurnLate(now, p, increment, works)
    ensures Periods(now, p % N, increment, works).0 == Schedule(now, p, increment, works)
    decreases |works|
  {
    hide DelayUntil;
    if works != [] {
      OneCall(p, increment, now + works[0]);
      LateWorkIsCaughtUp(Later(now + works[0], p + increment), p + increment, increment, works[1..]);
    }
  }

  // ---- With the previous wake time ahead ----

  /** The calls before the first one whose next wake time is more than a turn ahead. */
  function Unheld(now: nat, p: nat, increment: nat, works: seq<nat>): (n: nat)
    ensures n <= |works|
    decreases |works|
  {
    if works == [] || p + increment > now + works[0] + N then 0
    else 1 + Unheld(now + works[0], p + increment, increment, works[1..])
  }

  function Arrivals(now: nat, works: seq<nat>): (r: seq<nat>)
    ensures |r| == |works|
    decreases |works|
  {
    if works == [] then [] else [now + works[0]] + Arrivals(now + works[0], works[1..])
  }

  /** One call with the previous wake time ahead, by no more than a turn. */
  lemma OneEarlyCall(p: nat, increment: nat, t: nat)
    requires 0 < increment < N && t < p <= t + N
    ensures var (wake, block, ticks) := DelayUntil(p % N, increment, t % N);
            && wake == (p + increment) % N
            && (block <==> p + increment > t + N)
            && (block ==> t + ticks + N == p + increment)
  {
    hide DelayUntil;
    WrappedTime(p);
    WrappedTime(t);
    EarlyCall(p / N, p % N, increment, t / N, t % N);
    WrapOnce(p, increment);
  }

  lemma EarlyCall(epoch: nat, prev: nat, increment: nat, overflows: nat, tick: nat)
    requires prev < N && 0 < increment < N && tick < N
    requires Abs(overflows, tick) < Abs(epoch, prev) <= Abs(overflows, tick) + N
    ensures var (wake, block, ticks) := DelayUntil(prev, increment, tick);
            && wake == Plus(prev, increment)
            && (block <==> Abs(epoch, prev) + increment > Abs(overflows, tick) + N)
            && (block ==> Abs(overflows, tick) + ticks + N == Abs(epoch, prev) + increment)
  {
  }

  /** A task whose previous wake time is ahead does not get back on its schedule by itself,
      because each call adds more to that time than the work takes: its calls return at once
      until the stored time is a whole turn ahead of the clock, and only from then on at
      marks, a turn before the times that the task has asked for. */
  lemma {:induction false} EarlyTaskRunsFree(now: nat, p: nat, increment: nat, works: seq<nat>)
    requires 0 < increment < N && forall i :: 0 <= i < |works| ==> works[i] < increment
    requires p <= now + N && (works != [] ==> now + works[0] < p)
    ensures var n := Unheld(now, p, increment, works);
            Periods(now, p % N, increment, works).0 ==
            Arrivals(now, works[..n]) + Marks(p + n * increment - N, increment, |works| - n)
    decreases |works|
  {
    hide *;
    if works == [] {
      NothingToRun(now, p, increment);
    } else {
      var t, rest := now + works[0], works[1..];
      OneEarlyCall(p, increment, t);
      if p + increment > t + N {
        HeldAtOnce(now, p, increment, works);
      } else {
        RestFits(works, increment);
        EarlyTaskRunsFree(t, p + increment, increment, rest);
        FreeCall(now, p, increment, works);
      }
    }
  }

  lemma RestFits(works: seq<nat>, increment: nat)
    requires works != [] && forall i :: 0 <= i < |works| ==> works[i] < increment
    ensures forall i :: 0 <= i < |works[1..]| ==> works[1..][i] < increment
  {
  }

  lemma NothingToRun(now: nat, p: nat, increment: nat)
    requires 0 < increment < N
    ensures Unheld(now, p, increment, []) == 0 && Periods(now, p % N, increment, []).0 == []
    ensures Arrivals(now, []) == [] && Marks(p + 0 * increment - N, increment, 0) == []
  {
  }

  /** The first call that blocks, and all those behind it. */
  lemma HeldAtOnce(now: nat, p: nat, increment: nat, works: seq<nat>)
    requires 0 < increment < N && works != [] && forall i :: 0 <= i < |works| ==> works[i] < increment
    requires now + works[0] < p <= now + works[0] + N && p + increment > now + works[0] + N
    ensures Unheld(now, p, increment, works) == 0
    ensures Periods(now, p % N, increment, works).0 ==
            Arrivals(now, works[..0]) + Marks(p + 0 * increment - N, increment, |works|)
  {
    hide DelayUntil;
    var t, rest, back := now + works[0], works[1..], p + increment - N;
    OneEarlyCall(p, increment, t);
    SameTick(back);
    assert back + N == p + increment;
    NoDrift(back, increment, rest);
    assert 0 * increment == 0;
  }

  /** A call that returns at once, and those behind it. */
  lemma FreeCall(now: nat, p: nat, increment: nat, works: seq<nat>)
    requires 0 < increment < N && works != []
    requires now + works[0] < p && p + increment <= now + works[0] + N
    requires var m := Unheld(now + works[0], p + increment, increment, works[1..]);
             Periods(now + works[0], (p + increment) % N, increment, works[1..]).0 ==
             Arrivals(now + works[0], works[1..][..m]) +
             Marks(p + increment + m * increment - N, increment, |works| - 1 - m)
    ensures var n := Unheld(now, p, increment, works);
            Periods(now, p % N, increment, works).0 ==
            Arrivals(now, works[..n]) + Marks(p + n * increment - N, increment, |works| - n)
  {
    hide DelayUntil, Marks;
    OneEarlyCall(p, increment, now + works[0]);
    var n := Unheld(now + works[0], p + increment, increment, works[1..]);
    Scaled(n, increment);
    assert works[..n + 1][1..] == works[1..][..n];
  }

  lemma SameTick(t: nat)
    ensures (t + N) % N == t % N
  {
  }

  /** It runs free for as long as the stored time stays within a turn of where it began, and
      not for ever. */
  lemma {:induction false} FreeRunBounds(now: nat, p: nat, increment: nat, works: seq<nat>, k: nat)
    requires 0 < increment < N && forall i :: 0 <= i < |works| ==> works[i] < increment
    requires p <= now + N
    ensures k < |works| && p + (k + 1) * increment <= now + N ==> k < Unheld(now, p, increment, works)
    ensures Unheld(now, p, increment, works) <= now + N - p
    decreases |works|
  {
    if works != [] && p + increment <= now + works[0] + N {
      FreeRunBounds(now + works[0], p + increment, increment, works[1..], if k > 0 then k - 1 else 0);
      Scaled(k, increment);
    } else {
      Scaled(k, increment);
      NotNegative(k, increment);
    }
  }

  lemma NotNegative(k: nat, increment: nat)
    ensures k * increment >= 0
  {
  }

  /** Late or not, k calls move the stored wake time by exactly k increments. */
  lemma {:induction false} StoredTimeNeverDrifts(now: nat, prev: nat, increment: nat, works: seq<nat>)
    requires prev < N && 0 < increment < N
    ensures Periods(now, prev, increment, works).1 == (prev + |works| * increment) % N
    decreases |works|
  {
    hide DelayUntil;
    if works != [] {
      var t := now + works[0];
      var (wake, block, ticks) := DelayUntil(prev, increment, t % N);
      StoredIsNext(prev, increment, t % N);
      var q := (|works| - 1) * increment;
      StoredTimeNeverDrifts(if block then t + ticks else t, wake, increment, works[1..]);
      Scaled(|works| - 1, increment);
      WrapTwice(prev + increment, q);
    } else {
      NoIncrements(prev, increment);
    }
  }

  lemma StoredIsNext(prev: nat, increment: nat, tick: nat)
    requires prev < N && increment < N && tick < N
    ensures DelayUntil(prev, increment, tick).0 == (prev + increment) % N < N
  {
    hide Plus;
  }

  lemma NoIncrements(prev: nat, increment: nat)
    requires prev < N
    ensures (prev + 0 * increment) % N == prev
  {
  }

  lemma WrapTwice(p: nat, q: nat)
    ensures (p % N + q) % N == (p + q) % N
  {
    var k := p / N;
    assert p + q == k * N + (p % N + q);
  }
}
