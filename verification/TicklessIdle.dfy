/**
  Tickless idle: vTaskStepTick, called with the scheduler suspended, followed by the resume,
  against the ticks that were skipped.
*/
module TicklessIdle {
  import opened Ticks
  import opened Boards
  import opened Placement
  import opened Kernel
  import KernelTime
  import DL = DelayedLists

  lemma TickCounts(k: State)
    requires Sound(k.place) && k.tick < N
    ensures Clock(TickOnce(k)) == Clock(k) + 1
  {
    hide Sound, ExpireAll;
  }

  lemma {:induction false} TicksCount(k: State, n: nat)
    requires Sound(k.place) && k.tick < N
    ensures Clock(ManyTicks(k, n)) == Clock(k) + n
    decreases n
  {
    hide Sound, TickOnce, Clock;
    if n > 0 {
      TickOnceKeeps(k);
      TickCounts(k);
      TicksCount(TickOnce(k), n - 1);
    }
  }

  lemma QuietTick(k: State)
    requires Sound(k.place) && k.tick + 1 < N && k.tick + 1 < k.nextUnblock
    ensures TickOnce(k) == k.(tick := k.tick + 1)
  {
    hide Sound, ExpireAll;
  }

  /** Until the cached time a tick of the kernel does nothing but count. */
  lemma {:induction false} QuietTicks(k: State, n: nat)
    requires Sound(k.place) && k.tick + n < N && (n > 0 ==> k.tick + n < k.nextUnblock)
    ensures ManyTicks(k, n) == k.(tick := k.tick + n)
    decreases n
  {
    hide Sound, TickOnce;
    if n > 0 {
      QuietTick(k);
      QuietTicks(k.(tick := k.tick + 1), n - 1);
    }
  }

  /** What resuming does does not depend on the tick or on the ticks left pending. */
  lemma UnlockElsewhen(k: State, tick: nat, pended: nat)
    requires Sound(k.place)
    ensures Unlock(k.(tick := tick, pended := pended)) == Unlock(k).(tick := tick, pended := pended)
  {
    hide Sound, MovePending;
  }

  /** Resuming never brings the cached time nearer. */
  lemma UnlockKeepsCachedTime(k: State, a: DL.Agenda)
    requires Sound(k.place) && DL.Refines(View(k), a)
    ensures k.nextUnblock <= Unlock(k).nextUnblock
    ensures Sound(Unlock(k).place) && Unlock(k).tick == k.tick && Unlock(k).overflows == k.overflows
  {
    hide Sound, DL.Refines, MovePending, Items;
    MovePendingEmpties(k.place);
    KernelTime.MovePendingRefines(k, a);
    var m := k.(place := MovePending(k.place));
    KernelTime.CachedTime(View(m), DL.ForgetAll(a, Items(k.place.event, Pending)));
  }

  /** The state in which the ticks left pending will be taken. */
  lemma Resumed(k: State)
    requires Sound(k.place) && k.tick < N && k.locks == 1
    ensures Sound(Unlock(k).place) && Unlock(k).tick == k.tick
    ensures ResumeAll(k) == ManyTicks(Unlock(k), k.pended).(pended := 0)
    ensures Sound(ResumeAll(k).place) && ResumeAll(k).tick < N
  {
    hide Sound, MovePending, Items;
    MovePendingEmpties(k.place);
    TicksAddUp(Unlock(k), k.pended, 0);
  }

  /** Resuming and then taking n ticks is taking them all together. */
  lemma ResumedThenTicks(k: State, n: nat)
    requires Sound(k.place) && k.tick < N && k.locks == 1
    ensures Sound(Unlock(k).place) && Unlock(k).tick < N && Sound(ResumeAll(k).place) && ResumeAll(k).tick < N
    ensures ManyTicks(ResumeAll(k), n) == ManyTicks(Unlock(k), k.pended + n).(pended := 0)
  {
    hide Sound, Unlock, ResumeAll;
    Resumed(k);
    var u := Unlock(k);
    TicksAddUp(u, k.pended, n);
    PendedDoesNotMatter(ManyTicks(u, k.pended), n, 0);
  }

  /** Skipping n ticks on which nothing is due, and resuming with p ticks pending. */
  lemma SkippedThenResumed(k: State, a: DL.Agenda, n: nat, p: nat)
    requires Sound(k.place) && k.locks == 1 && DL.Refines(View(k), a)
    requires k.tick + n < N && (n > 0 ==> k.tick + n < k.nextUnblock)
    ensures Sound(Unlock(k).place) && Unlock(k).tick < N
    ensures ResumeAll(k.(tick := k.tick + n, pended := p)) == ManyTicks(Unlock(k), n + p).(pended := 0)
  {
    var s, u := k.(tick := k.tick + n, pended := p), Unlock(k);
    hide Sound, Unlock, ResumeAll, DL.Refines;
    UnlockKeepsCachedTime(k, a);
    QuietTicks(u, n);
    UnlockElsewhen(k, k.tick + n, p);
    Resumed(s);
    assert Unlock(s) == ManyTicks(u, n).(pended := p);
    TicksAddUp(u, n, p);
    PendedDoesNotMatter(ManyTicks(u, n), p, p);
  }

  /** If it wraps, the clock loses a whole turn. */
  lemma WrappedStepIsBehind(k: State, jump: nat)
    requires Sound(k.place) && k.locks == 1 && k.tick < N && k.tick <= k.nextUnblock
    requires N <= k.tick + jump && CanStep(k, jump)
    ensures Sound(ResumeAll(k).place) && ResumeAll(k).tick < N
    ensures Clock(ResumeAll(StepTick(k, jump))) + N == Clock(ManyTicks(ResumeAll(k), jump))
  {
    var s := StepTick(k, jump);
    assert s == k.(tick := k.tick + jump - N);
    hide Sound, ResumeAll, StepTick, CanStep;
    Resumed(k);
    Resumed(s);
    UnlockElsewhen(k, s.tick, s.pended);
    TicksCount(Unlock(k), k.pended);
    TicksCount(Unlock(s), s.pended);
    TicksCount(ResumeAll(k), jump);
    ClockOf(k);
    ClockOf(s);
  }

  lemma ClockOf(k: State)
    requires Sound(k.place)
    ensures Clock(Unlock(k)) == Clock(k)
    ensures forall n: nat :: Clock(k.(pended := n)) == Clock(k)
  {
    hide Sound, MovePending;
  }

  /** With the scheduler suspended once, a step that passes the assertions of vTaskStepTick,
      followed by the resume, is resuming first and then taking that many ordinary ticks, ready
      lists and pended ticks and all, exactly if the counter does not wrap on the way. The
      assertion adds in tick arithmetic, so it lets a step that wraps through. */
  lemma StepTickIsTicks(k: State, a: DL.Agenda, jump: nat)
    requires Inv(k) && k.locks == 1 && DL.Refines(View(k), a) && CanStep(k, jump)
    ensures Sound(StepTick(k, jump).place) && StepTick(k, jump).tick < N
    ensures Sound(ResumeAll(k).place) && ResumeAll(k).tick < N
    ensures ResumeAll(StepTick(k, jump)) == ManyTicks(ResumeAll(k), jump) <==> k.tick + jump < N
  {
    hide *;
    InvIsSound(k);
    InvIsTidy(k);
    NotBehind(k, a);
    Resumed(k);
    if k.tick + jump < N {
      StepStaysQuiet(k, jump);
      SkippedThenResumed(k, a, StepTick(k, jump).tick - k.tick, StepTick(k, jump).pended);
      ResumedThenTicks(k, jump);
    } else {
      WrappedStepIsBehind(k, jump);
    }
  }

  lemma StepStaysQuiet(k: State, jump: nat)
    requires k.tick + jump < N && CanStep(k, jump)
    ensures var s := StepTick(k, jump); s.tick >= k.tick && (s.tick > k.tick ==> s.tick < k.nextUnblock)
  {
  }

  lemma NotBehind(k: State, a: DL.Agenda)
    requires DL.Refines(View(k), a)
    ensures k.tick <= k.nextUnblock
  {
  }

  /** One tick before the wrap, with nothing due before it, a step of 2 passes the assertions. The
      counter shows 1 afterwards, as after two ticks, but the overflow is never counted. */
  lemma WrappingStepLosesTheOverflow(k: State)
    requires Inv(k) && k.locks == 1 && k.pended == 0
    requires k.tick == N - 1 && k.nextUnblock == MAX_DELAY
    ensures CanStep(k, 2) && Sound(ResumeAll(k).place) && ResumeAll(k).tick < N
    ensures var s := ResumeAll(StepTick(k, 2)); s.tick == 1 && s.overflows == k.overflows
    ensures var s := ManyTicks(ResumeAll(k), 2); s.tick == 1 && s.overflows == k.overflows + 1
  {
    hide Sound, AlwaysReady, MovePending;
    Resumed(k);
    var u := ResumeAll(k);
    assert u == Unlock(k).(pended := 0);
    TickOnceKeeps(u);
    TwoTicks(u);
    Resumed(StepTick(k, 2));
  }

  lemma TwoTicks(k: State)
    requires Sound(k.place) && k.tick < N
    ensures Sound(TickOnce(k).place) && TickOnce(k).tick < N
    ensures ManyTicks(k, 2) == TickOnce(TickOnce(k))
  {
    hide Sound, TickOnce;
    TickOnceKeeps(k);
    TickOnceKeeps(TickOnce(k));
    assert ManyTicks(TickOnce(TickOnce(k)), 0) == TickOnce(TickOnce(k));
    assert ManyTicks(TickOnce(k), 1) == ManyTicks(TickOnce(TickOnce(k)), 0);
  }
}
