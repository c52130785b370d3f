/**
  The timer service task of timers.c: two lists of active timers ordered by wrapped expiry
  time, the reload of periodic timers that have fallen behind, and the switch of the lists
  when the service notices that the tick counter has wrapped.
*/
module Timers {
  import opened Ticks
  import opened TimedLists
  import opened TimerRules

  class TimerService {
    var current: seq<Entry>              // *pxCurrentTimerList
    var overflow: seq<Entry>             // *pxOverflowTimerList
    var lastTime: nat                    // xLastTime
    var timers: map<Id, Timer>
    ghost var history: map<Id, History>
    ghost var epoch: nat                 // how often the lists have been switched
    ghost var clock: nat                 // the absolute time of the last sample
    ghost var loose: set<Id>             // taken off its list by the command under way

    ghost predicate Valid()
      reads this
    {
      && lastTime < N
      && WellKept(current, overflow)
      && AllTracked(current, epoch, timers, history, clock)
      && AllTracked(overflow, epoch + 1, timers, history, clock)
      && Complete(timers, current, overflow, loose)
    }

    /** The service has sampled the time and is between two of its jobs. */
    ghost predicate Settled()
      reads this
    {
      Valid() && clock == Abs(epoch, lastTime)
    }

    /** And no timer is off its list. */
    ghost predicate Idle()
      reads this
    {
      Settled() && loose == {}
    }

    constructor ()
      ensures Idle() && clock == 0 && timers == map[]
    {
      hide Has;
      current, overflow := [], [];
      lastTime, timers := 0, map[];
      history, epoch, clock, loose := map[], 0, 0, {};
    }

    /** prvInsertTimerInActiveList */
    method Insert(who: Id, next: nat, now: nat, command: nat) returns (processNow: bool)
      requires who in timers && next < N && now < N && command < N
      modifies `current, `overflow
      ensures processNow <==> Decide(next, now, command, timers[who].period) == ProcessNow
      ensures current == if Decide(next, now, command, timers[who].period) == OnCurrent
                         then InsertSorted(old(current), Entry(who, next)) else old(current)
      ensures overflow == if Decide(next, now, command, timers[who].period) == OnOverflow
                          then InsertSorted(old(overflow), Entry(who, next)) else old(overflow)
    {
      processNow := false;
      if next <= now {
        if Minus(now, command) >= timers[who].period {
          processNow := true;
        } else {
          overflow := InsertSorted(overflow, Entry(who, next));
        }
      } else {
        if now < command && next >= command {
          processNow := true;
        } else {
          current := InsertSorted(current, Entry(who, next));
        }
      }
    }

    /** An insertion by a command at absolute time at puts the timer on the list it belongs on,
        or says that it has expired. */
    method InsertExactly(who: Id, now: nat, command: nat, ghost at: nat) returns (processNow: bool)
      requires who in timers && 0 < timers[who].period < N && now < N && command < N
      requires Shows(at, command) && at <= Abs(epoch, now) < at + N
      modifies `current, `overflow
      ensures processNow <==> at + timers[who].period <= Abs(epoch, now)
      ensures processNow ==> current == old(current) && overflow == old(overflow)
      ensures !processNow ==>
                (current, overflow) == Enlist(old(current), old(overflow), epoch, who, at + timers[who].period)
    {
      hide InsertSorted;
      ghost var e :| at == Abs(e, command);
      DecideIsExact(e, command, timers[who].period, epoch, now);
      processNow := Insert(who, Plus(command, timers[who].period), now, command);
    }

    /** The callback: all the model records is that it is made. */
    ghost method Callback(who: Id)
      requires who in timers && who in history && OnSchedule(history[who], timers[who].period)
      modifies `history
      ensures history == old(history)[who := Fired(old(history[who]), timers[who].period)]
      ensures OnSchedule(history[who], timers[who].period)
    {
      StaysOnSchedule(history[who], 0, timers[who].period);
      history := history[who := Fired(history[who], timers[who].period)];
    }

    /** prvReloadTimer: a callback for every period that is already over, then the timer goes
        back on a list, to expire at the first time ahead. */
    method Reload(who: Id, expired: nat, now: nat)
      requires who in timers && who in history && 0 < timers[who].period < N && now < N
      requires OnSchedule(history[who], timers[who].period)
      requires Shows(history[who].due, expired) && history[who].due <= Abs(epoch, now) < history[who].due + N
      modifies `current, `overflow, `history
      ensures who in history && history == old(history)[who := history[who]]
      ensures history[who].start == old(history[who].start) && history[who].fired >= old(history[who].fired)
      ensures OnSchedule(history[who], timers[who].period)
      ensures history[who].due <= Abs(epoch, now) < history[who].due + timers[who].period
      ensures (current, overflow) ==
              Enlist(old(current), old(overflow), epoch, who, history[who].due + timers[who].period)
    {
      hide OnSchedule, InsertSorted, Enlist;
      var reached := expired;
      var again := InsertExactly(who, now, reached, history[who].due);
      while again
        invariant who in history && history == old(history)[who := history[who]]
        invariant history[who].start == old(history[who].start) && history[who].fired >= old(history[who].fired)
        invariant OnSchedule(history[who], timers[who].period)
        invariant Shows(history[who].due, reached)
        invariant history[who].due <= Abs(epoch, now) < history[who].due + N
        invariant again <==> history[who].due + timers[who].period <= Abs(epoch, now)
        invariant again ==> current == old(current) && overflow == old(overflow)
        invariant !again ==>
          (current, overflow) == Enlist(old(current), old(overflow), epoch, who, history[who].due + timers[who].period)
        decreases Abs(epoch, now) - history[who].due
      {
        ShowsNext(history[who].due, reached, timers[who].period);
        reached := Plus(reached, timers[who].period);
        Callback(who);
        again := InsertExactly(who, now, reached, history[who].due);
      }
    }

    /** What is known once the timer at the head has expired at or before absolute time upTo. */
    ghost predicate Processed(who: Id, h: History, upTo: nat)
      reads this
      requires who in timers
    {
      && who in history && history[who].start == h.start && history[who].fired > h.fired
      && OnSchedule(history[who], timers[who].period)
      && (timers[who].auto ==> history[who].due <= upTo + timers[who].period && upTo < history[who].due)
      && (!timers[who].auto ==> history[who].fired == h.fired + 1)
    }

    lemma HeadIsTracked(now: nat)
      requires Valid() && current != [] && current[0].value <= now < N
      ensures var who, v := current[0].who, current[0].value;
              && who in timers && who in history && timers[who].active && 0 < timers[who].period < N
              && OnSchedule(history[who], timers[who].period)
              && Shows(history[who].due, v)
              && history[who].due == Abs(epoch, v) <= Abs(epoch, now) < history[who].due + N
    {
      assert Tracked(current[0], epoch, timers, history, clock);
    }

    lemma HeadIsLeast()
      requires Valid()
      ensures forall i :: 0 <= i < |current| ==> current[0].value <= current[i].value < N
    {
      assert forall i :: 0 <= i < |current| ==> Tracked(current[i], epoch, timers, history, clock);
    }

    lemma HeadIsNotLoose()
      requires Valid() && current != []
      ensures current[0].who !in loose
    {
    }

    /** prvProcessExpiredTimer: a periodic timer ends up on the list of its next expiry. */
    method ProcessExpired(next: nat, now: nat) returns (who: Id)
      requires Valid() && current != [] && next == current[0].value <= now < N && Abs(epoch, now) <= clock
      modifies `current, `overflow, `timers, `history
      ensures Valid()
      ensures who == old(current[0].who) && who in old(timers) && who in timers && who in history
      ensures timers == old(timers)[who := old(timers)[who].(active := old(timers)[who].auto)]
      ensures who in old(history) && history == old(history)[who := history[who]]
      ensures Processed(who, old(history)[who], Abs(epoch, now))
      ensures Progress(old(timers), old(history), timers, history, loose, clock)
      ensures LeftAlone(old(timers), old(history), timers, history, loose)
      ensures (current, overflow) ==
              var rest := old(Without(current, current[0].who));
              if timers[who].auto then Enlist(rest, old(overflow), epoch, who, history[who].due)
              else (rest, old(overflow))
    {
      hide AllTracked, WellKept, Complete, Without, Enlist, OnSchedule, Shows, Progress, LeftAlone;
      who := current[0].who;
      HeadIsTracked(now);
      HeadIsElsewhereAbsent(current, overflow);
      HeadIsNotLoose();
      current := Without(current, who);
      if timers[who].auto {
        Reload(who, next, now);
      } else {
        timers := timers[who := timers[who].(active := false)];
      }
      Callback(who);
      assert history == old(history)[who := history[who]];
      assert timers == old(timers)[who := timers[who]];
      AfterExpiry(old(current), old(overflow), epoch, old(timers), old(history), clock, loose, timers[who], history[who]);
      ProgressOfOne(old(timers), old(history), who, timers[who], history[who], loose, clock);
    }

    lemma OffTheHead(who: Id, due: nat)
      requires current != [] && who == current[0].who && Abs(epoch + 1, 0) <= due < Abs(epoch + 2, 0)
      ensures |Without(current, who)| == |current| - 1
      ensures Enlist(Without(current, who), overflow, epoch, who, due).0 == Without(current, who)
    {
    }

    /** One turn of the loop of prvSwitchTimerLists. */
    method DrainHead()
      requires Valid() && current != [] && Abs(epoch + 1, 0) <= clock
      modifies `current, `overflow, `timers, `history
      ensures Valid() && |current| == |old(current)| - 1
      ensures Progress(old(timers), old(history), timers, history, loose, clock)
      ensures LeftAlone(old(timers), old(history), timers, history, loose)
      ensures history.Keys == old(history).Keys && timers.Keys == old(timers).Keys
    {
      hide AllTracked, WellKept, Complete, Without, Enlist, OnSchedule, Progress, LeftAlone;
      ghost var head := current[0].who;
      HeadIsLeast();
      HeadIsTracked(N - 1);
      HeadIsNotLoose();
      ghost var rest := Without(current, head);
      OffTheHead(head, Abs(epoch + 1, 0));
      var next := current[0].value;
      var who := ProcessExpired(next, MAX_DELAY);
      if timers[who].auto {
        EnlistsLater(rest, old(overflow), epoch, who, history[who].due);
      }
    }

    static lemma EnlistsLater(c: seq<Entry>, o: seq<Entry>, epoch: nat, who: Id, due: nat)
      requires Abs(epoch + 1, 0) <= due < Abs(epoch + 2, 0)
      ensures Enlist(c, o, epoch, who, due).0 == c
    {
    }

    /** prvSwitchTimerLists: what is left on the current list has expired and is dealt with
        first, further expiries of a periodic timer going to the other list. */
    method Switch()
      requires Valid() && Abs(epoch + 1, 0) <= clock
      modifies `current, `overflow, `timers, `history, `epoch
      ensures Valid() && epoch == old(epoch) + 1 && timers.Keys == old(timers).Keys
      ensures Progress(old(timers), old(history), timers, history, loose, clock)
      ensures LeftAlone(old(timers), old(history), timers, history, loose)
    {
      hide AllTracked, WellKept, Complete, Progress, LeftAlone;
      NothingDone(timers, history, loose, clock);
      while current != []
        invariant Valid() && epoch == old(epoch)
        invariant Progress(old(timers), old(history), timers, history, loose, clock)
        invariant LeftAlone(old(timers), old(history), timers, history, loose)
        invariant history.Keys == old(history).Keys && timers.Keys == old(timers).Keys
        decreases |current|
      {
        ghost var t1, h1 := timers, history;
        DrainHead();
        ProgressAddsUp(old(timers), old(history), t1, h1, timers, history, loose, clock);
        AloneAddsUp(old(timers), old(history), t1, h1, timers, history, loose);
      }
      ListsChange(overflow, epoch + 2, timers, history, clock, loose);
      current, overflow := overflow, current;
      epoch := epoch + 1;
    }

    /** prvSampleTimeNow, at least once in every turn of the counter. */
    method Sample(now: nat, ghost te: nat) returns (switched: bool)
      requires Settled() && now < N && clock <= Abs(te, now) < clock + N
      modifies `current, `overflow, `timers, `history, `epoch, `clock, `lastTime
      ensures Settled() && lastTime == now && epoch == te && timers.Keys == old(timers).Keys
      ensures switched <==> te == old(epoch) + 1
      ensures !switched ==> current == old(current) && overflow == old(overflow)
      ensures !switched ==> history == old(history) && timers == old(timers)
      ensures Progress(old(timers), old(history), timers, history, loose, clock)
      ensures LeftAlone(old(timers), old(history), timers, history, loose)
    {
      hide WellKept, Complete, AllTracked;
      TrackedLater(current, epoch, timers, history, clock, Abs(te, now));
      TrackedLater(overflow, epoch + 1, timers, history, clock, Abs(te, now));
      clock := Abs(te, now);
      switched := false;
      if now < lastTime {
        Switch();
        switched := true;
      }
      lastTime := now;
    }

    // ---- The service task ----

    /** prvGetNextExpireTime and prvProcessTimerOrBlockTask: either a timer that has expired is
        processed, or the lists have just been switched, or the task blocks, and then no
        expired timer is left and it is woken when the next one expires or the counter wraps. */
    method ProcessOrBlock(now: nat, ghost te: nat) returns (blocks: bool, ticks: nat, forever: bool)
      requires Idle() && now < N && clock <= Abs(te, now) < clock + N
      modifies `current, `overflow, `timers, `history, `epoch, `clock, `lastTime
      ensures Idle() && lastTime == now && epoch == te && clock == Abs(te, now)
      ensures Progress(old(timers), old(history), timers, history, {}, clock)
      ensures blocks ==> te == old(epoch) && timers == old(timers) && history == old(history)
      ensures !blocks && te == old(epoch) ==> old(current) != [] && old(current)[0].value <= now
      ensures !blocks && te == old(epoch) ==>
                var who := old(current)[0].who;
                who in old(history) && who in history && history[who].fired > old(history)[who].fired
      ensures blocks ==> forall i :: 0 <= i < |current| ==> now + ticks <= current[i].value && now < current[i].value
      ensures blocks && current != [] ==> now + ticks == current[0].value
      ensures blocks && current == [] ==> ticks == if now == 0 then 0 else N - now
      ensures blocks ==> (forever <==> current == [] && overflow == [])
      ensures !blocks ==> ticks == 0 && !forever
    {
      hide WellKept, Complete, AllTracked;
      var listWasEmpty := current == [];
      var next := if listWasEmpty then 0 else current[0].value;
      blocks, ticks, forever := false, 0, false;
      var switched := Sample(now, te);
      if !switched {
        if !listWasEmpty && next <= now {
          var _ := ProcessExpired(next, now);
        } else {
          HeadIsLeast();
          blocks, ticks := true, Minus(next, now);
          forever := listWasEmpty && overflow == [];
        }
      }
    }

    /** Timer exactness: whenever the service blocks, every periodic timer that is active has made
        exactly one callback for each whole period since the time it was started at. */
    lemma ExactlyOnePerPeriod(now: nat, who: Id)
      requires Idle() && lastTime == now && forall i :: 0 <= i < |current| ==> now < current[i].value
      requires who in timers && timers[who].active
      ensures who in history && 0 < timers[who].period && history[who].start <= clock
      ensures history[who].fired == (clock - history[who].start) / timers[who].period
    {
      CaughtUp(current, overflow, epoch, now, timers, history, who);
    }

    // ---- Commands ----

    /** xTimerCreate */
    method Create(who: Id, period: nat, auto: bool)
      requires Idle() && who !in timers && 0 < period < N
      modifies `timers
      ensures Idle() && timers == old(timers)[who := Timer(period, auto, false)]
    {
      TrackedNew(current, epoch, who, Timer(period, auto, false));
      TrackedNew(overflow, epoch + 1, who, Timer(period, auto, false));
      hide AllTracked, Has;
      timers := timers[who := Timer(period, auto, false)];
    }

    lemma TrackedNew(s: seq<Entry>, e: nat, who: Id, t: Timer)
      requires AllTracked(s, e, timers, history, clock) && who !in timers
      ensures AllTracked(s, e, timers[who := t], history, clock)
    {
    }

    /** A command begins: the timer comes off its list, and the time is sampled. */
    method TakeOff(who: Id, now: nat, ghost te: nat)
      requires Idle() && who in timers && now < N && clock <= Abs(te, now) < clock + N
      modifies this
      ensures Settled() && loose == {who} && lastTime == now && epoch == te && clock == Abs(te, now)
      ensures Progress(old(timers), old(history), timers, history, {who}, clock)
      ensures who in timers && timers[who] == old(timers)[who]
      ensures timers.Keys == old(timers).Keys
    {
      hide WellKept, Complete, AllTracked, Without;
      assert timers == timers[who := timers[who]];
      if who in history {
        assert history == history[who := history[who]];
        AfterRemoval(current, overflow, epoch, timers, history, clock, who, timers[who], history[who]);
      } else {
        RemovalOfUnknown(who);
      }
      CompleteRemoval(timers, current, overflow, loose, who, timers[who]);
      current, overflow := Without(current, who), Without(overflow, who);
      loose := loose + {who};
      var _ := Sample(now, te);
    }

    lemma RemovalOfUnknown(who: Id)
      requires Valid() && who !in history
      ensures Without(current, who) == current && Without(overflow, who) == overflow
    {
      assert forall i :: 0 <= i < |current| ==> Tracked(current[i], epoch, timers, history, clock);
      assert forall i :: 0 <= i < |overflow| ==> Tracked(overflow[i], epoch + 1, timers, history, clock);
    }

    /** The timer a command has taken off gets new settings and a new history. */
    method Renew(who: Id, t: Timer, ghost h: History)
      requires Settled() && loose == {who}
      modifies `timers, `history
      ensures Settled() && timers == old(timers)[who := t] && history == old(history)[who := h]
    {
      TrackedFrame(current, epoch, timers, history, clock, who, t, h);
      TrackedFrame(overflow, epoch + 1, timers, history, clock, who, t, h);
      hide AllTracked, Has, WellKept;
      timers, history := timers[who := t], history[who := h];
    }

    /** A timer that has just been started, at absolute time at, goes on its list, after the
        callbacks that are overdue. */
    method Launch(who: Id, command: nat, now: nat, ghost at: nat)
      requires Settled() && loose == {who} && who in timers && who in history && timers[who].active
      requires 0 < timers[who].period < N && history[who] == Started(at, timers[who].period)
      requires command < N && Shows(at, command) && now == lastTime && at <= clock < at + N
      modifies `current, `overflow, `timers, `history, `loose
      ensures Idle()
      ensures who in timers && timers == old(timers)[who := old(timers)[who].(active := timers[who].active)]
      ensures who in history && history == old(history)[who := history[who]] && history[who].start == at
      ensures timers[who].active <==> timers[who].auto || clock < at + timers[who].period
      ensures !timers[who].auto ==> history[who].fired == if timers[who].active then 0 else 1
      ensures timers[who].active ==> OnSchedule(history[who], timers[who].period)
      ensures timers[who].active ==> clock < history[who].due <= clock + timers[who].period
    {
      hide WellKept, Complete, AllTracked, Enlist, Shows, OnSchedule;
      StaysOnSchedule(history[who], at, timers[who].period);
      ghost var c, o, h := current, overflow, history;
      SameTimer(timers, history, who);
      var expired := InsertExactly(who, now, command, at);
      if expired {
        Overdue(who, command, now, at);
      } else {
        Relist(who, c, o, h);
      }
    }

    static lemma SameTimer(timers: map<Id, Timer>, history: map<Id, History>, who: Id)
      requires who in timers && timers[who].active && who in history
      ensures timers == timers[who := timers[who].(active := true)] && history == history[who := history[who]]
    {
    }

    /** The timer has expired before it was started. */
    method Overdue(who: Id, command: nat, now: nat, ghost at: nat)
      requires Settled() && loose == {who} && who in timers && who in history && timers[who].active
      requires 0 < timers[who].period < N && history[who] == Started(at, timers[who].period)
      requires command < N && Shows(at, command) && now == lastTime && at + timers[who].period <= clock < at + N
      modifies `current, `overflow, `timers, `history, `loose
      ensures Idle()
      ensures who in timers && timers == old(timers)[who := old(timers)[who].(active := timers[who].auto)]
      ensures who in history && history == old(history)[who := history[who]] && history[who].start == at
      ensures !timers[who].auto ==> history[who].fired == 1
      ensures timers[who].auto ==> OnSchedule(history[who], timers[who].period)
      ensures timers[who].auto ==> clock < history[who].due <= clock + timers[who].period
    {
      hide WellKept, Complete, AllTracked, Enlist, Shows, OnSchedule;
      StaysOnSchedule(history[who], at, timers[who].period);
      ghost var c, o, h := current, overflow, history;
      if timers[who].auto {
        SameTimer(timers, history, who);
        ShowsNext(at, command, timers[who].period);
        Reload(who, Plus(command, timers[who].period), now);
        Callback(who);
        assert history == h[who := history[who]];
        Relist(who, c, o, h);
      } else {
        Callback(who);
        Deactivate(who, h);
      }
    }

    /** The timer under command has gone onto the list it belongs on. */
    ghost method Relist(who: Id, c: seq<Entry>, o: seq<Entry>, h: map<Id, History>)
      requires loose == {who} && lastTime < N && clock == Abs(epoch, lastTime)
      requires who in timers && timers[who].active && 0 < timers[who].period < N
      requires WellKept(c, o) && AllTracked(c, epoch, timers, h, clock) && AllTracked(o, epoch + 1, timers, h, clock)
      requires Complete(timers, c, o, loose)
      requires who in history && OnSchedule(history[who], timers[who].period) && history == h[who := history[who]]
      requires clock < history[who].due <= clock + timers[who].period
      requires (current, overflow) == Enlist(c, o, epoch, who, history[who].due)
      modifies `loose
      ensures Idle()
    {
      hide WellKept, AllTracked, Enlist, OnSchedule, Has;
      assert timers == timers[who := timers[who]];
      TrackedFrame(c, epoch, timers, h, clock, who, timers[who], history[who]);
      TrackedFrame(o, epoch + 1, timers, h, clock, who, timers[who], history[who]);
      EnlistKeeps(c, o, epoch, who, history[who].due, timers, history, clock);
      loose := {};
      CompleteEnlist(timers, c, o, loose, epoch, who, history[who].due);
    }

    /** The timer under command stays off the lists, and is no longer active. */
    method Deactivate(who: Id, ghost h: map<Id, History>)
      requires loose == {who} && lastTime < N && clock == Abs(epoch, lastTime) && who in timers
      requires WellKept(current, overflow) && Complete(timers, current, overflow, loose)
      requires AllTracked(current, epoch, timers, h, clock) && AllTracked(overflow, epoch + 1, timers, h, clock)
      requires who in history && history == h[who := history[who]]
      modifies `timers, `loose
      ensures Idle() && timers == old(timers)[who := old(timers)[who].(active := false)]
    {
      hide WellKept, AllTracked, Has;
      TrackedFrame(current, epoch, timers, h, clock, who, timers[who].(active := false), history[who]);
      TrackedFrame(overflow, epoch + 1, timers, h, clock, who, timers[who].(active := false), history[who]);
      timers := timers[who := timers[who].(active := false)];
      loose := {};
    }

    /** tmrCOMMAND_START and tmrCOMMAND_RESET, with the time at which the command was given. */
    method Start(who: Id, command: nat, now: nat, ghost at: nat, ghost te: nat)
      requires Idle() && who in timers && 0 < timers[who].period < N
      requires command < N && Shows(at, command) && now < N && clock <= Abs(te, now) < clock + N
      requires at <= Abs(te, now) < at + N
      modifies this
      ensures Idle() && lastTime == now && epoch == te && clock == Abs(te, now)
      ensures who in timers && timers[who] == old(timers)[who].(active := timers[who].active)
      ensures timers.Keys == old(timers).Keys
      ensures who in history && history[who].start == at <= clock
      ensures timers[who].active <==> timers[who].auto || clock < at + timers[who].period
      ensures timers[who].active ==> history[who].fired == (clock - at) / timers[who].period
      ensures !timers[who].active ==> history[who].fired == 1
      ensures Progress(old(timers), old(history), timers, history, {who}, clock)
    {
      hide WellKept, Complete, AllTracked, Enlist, Shows, OnSchedule, Progress;
      var period := timers[who].period;
      TakeOff(who, now, te);
      ghost var t1, h1 := timers, history;
      Renew(who, timers[who].(active := true), Started(at, period));
      Launch(who, command, now, at);
      assert timers == t1[who := timers[who]] && history == h1[who := history[who]];
      ProgressButOne(old(timers), old(history), t1, h1, clock, who, timers[who], history[who]);
      if timers[who].active {
        FiredIsFloor(history[who], period, clock);
      }
    }

    /** tmrCOMMAND_STOP */
    method Stop(who: Id, now: nat, ghost te: nat)
      requires Idle() && who in timers && now < N && clock <= Abs(te, now) < clock + N
      modifies this
      ensures Idle() && lastTime == now && epoch == te && clock == Abs(te, now)
      ensures who in timers && timers[who] == old(timers)[who].(active := false)
      ensures timers.Keys == old(timers).Keys
      ensures Progress(old(timers), old(history), timers, history, {who}, clock)
    {
      hide WellKept, AllTracked, Complete, OnSchedule, Progress;
      TakeOff(who, now, te);
      ghost var t1, h1 := timers, history;
      Renew(who, timers[who], History(clock, 0, 0));
      Deactivate(who, history);
      assert timers == t1[who := timers[who]];
      ProgressButOne(old(timers), old(history), t1, h1, clock, who, timers[who], history[who]);
    }

    static lemma ShowsItself(e: nat, t: nat)
      requires t < N
      ensures Shows(Abs(e, t), t)
    {
    }

    /** A timer started at the present time goes on its list: its expiry can only be ahead. */
    method LaunchNow(who: Id)
      requires Settled() && loose == {who} && who in timers && who in history && timers[who].active
      requires 0 < timers[who].period < N && history[who] == Started(clock, timers[who].period)
      modifies `current, `overflow, `loose
      ensures Idle()
    {
      hide WellKept, AllTracked, Complete, OnSchedule, Enlist, Shows;
      ghost var c, o, h := current, overflow, history;
      ShowsItself(epoch, lastTime);
      StaysOnSchedule(history[who], clock, timers[who].period);
      var _ := InsertExactly(who, lastTime, lastTime, clock);
      assert h == h[who := h[who]];
      Relist(who, c, o, h);
    }

    /** tmrCOMMAND_CHANGE_PERIOD: the new period counts from now, so it never is over already. */
    method ChangePeriod(who: Id, period: nat, now: nat, ghost te: nat)
      requires Idle() && who in timers && 0 < period < N && now < N && clock <= Abs(te, now) < clock + N
      modifies this
      ensures Idle() && lastTime == now && epoch == te && clock == Abs(te, now)
      ensures who in timers && timers[who] == old(timers)[who].(active := true, period := period)
      ensures timers.Keys == old(timers).Keys
      ensures who in history && history[who] == Started(clock, period)
      ensures Progress(old(timers), old(history), timers, history, {who}, clock)
    {
      hide WellKept, AllTracked, Complete, Progress, Abs;
      TakeOff(who, now, te);
      ghost var t1, h1 := timers, history;
      Renew(who, timers[who].(active := true, period := period), Started(clock, period));
      LaunchNow(who);
      ProgressButOne(old(timers), old(history), t1, h1, clock, who, timers[who], history[who]);
    }

    /** tmrCOMMAND_DELETE: memory that was allocated for the timer is freed, and with it the timer. */
    method Delete(who: Id, dynamic: bool, now: nat, ghost te: nat)
      requires Idle() && who in timers && now < N && clock <= Abs(te, now) < clock + N
      modifies this
      ensures Idle() && lastTime == now && epoch == te && clock == Abs(te, now)
      ensures !dynamic ==> who in timers && timers[who] == old(timers)[who].(active := false)
      ensures timers.Keys == if dynamic then old(timers).Keys - {who} else old(timers).Keys
      ensures Progress(old(timers), old(history), timers, history, {who}, clock)
    {
      hide WellKept, AllTracked, Complete, OnSchedule, Moves;
      if dynamic {
        TakeOff(who, now, te);
        Forget(who);
      } else {
        Stop(who, now, te);
      }
    }

    method Forget(who: Id)
      requires Settled() && loose == {who}
      modifies `timers, `loose
      ensures Idle() && timers == map t | t in old(timers) && t != who :: old(timers)[t]
    {
      hide WellKept, AllTracked, Has;
      TrackedGone(current, epoch, timers, history, clock, who);
      TrackedGone(overflow, epoch + 1, timers, history, clock, who);
      timers := map t | t in timers && t != who :: timers[t];
      loose := {};
    }

    /** The switch of prvProcessReceivedCommands. */
    method Process(m: Message, now: nat, ghost at: nat, ghost te: nat)
      requires Idle() && m.who in timers && 0 < timers[m.who].period < N
      requires now < N && clock <= Abs(te, now) < clock + N
      requires m.StartTimer? ==> m.issued < N && Shows(at, m.issued) && at <= Abs(te, now) < at + N
      requires m.ChangeTimer? ==> 0 < m.period < N
      modifies this
      ensures Idle() && clock == Abs(te, now)
      ensures m.who in SettingsOf(old(timers)) && SettingsOf(timers) == Configure(SettingsOf(old(timers)), m)
      ensures !m.DeleteTimer? ==> m.who in timers
      ensures m.StartTimer? ==> m.who in history && history[m.who].start == at
      ensures m.StartTimer? && timers[m.who].auto ==> timers[m.who].active
      ensures m.ChangeTimer? ==> timers[m.who].active
      ensures m.StopTimer? ==> !timers[m.who].active
      ensures Progress(old(timers), old(history), timers, history, {m.who}, clock)
    {
      hide WellKept, AllTracked, Complete, OnSchedule, Progress, Shows;
      ghost var t0, h0 := timers, history;
      match m
      case StartTimer(who, issued) =>
        Start(who, issued, now, at, te);
        ProgressKeepsSettings(t0, h0, timers, history, who, clock);
      case StopTimer(who) =>
        Stop(who, now, te);
        ProgressKeepsSettings(t0, h0, timers, history, who, clock);
      case ChangeTimer(who, period) =>
        ChangePeriod(who, period, now, te);
        ProgressKeepsSettings(t0, h0, timers, history, who, clock);
      case DeleteTimer(who, dynamic) =>
        Delete(who, dynamic, now, te);
        DeletedSettings(t0, h0, timers, history, who, clock);
    }

    static lemma DeletedSettings(t0: map<Id, Timer>, h0: map<Id, History>, t1: map<Id, Timer>, h1: map<Id, History>,
                                 who: Id, clock: nat)
      requires Progress(t0, h0, t1, h1, {who}, clock) && who in t0
      ensures t1.Keys == t0.Keys - {who} ==>
                SettingsOf(t1) == map t | t in SettingsOf(t0) && t != who :: SettingsOf(t0)[t]
      ensures t1.Keys == t0.Keys && t1[who].period == t0[who].period && t1[who].auto == t0[who].auto ==>
                SettingsOf(t1) == SettingsOf(t0)
    {
      forall t | t in t0 && t != who ensures t in t1 && t1[t].period == t0[t].period && t1[t].auto == t0[t].auto {
      }
    }

    /** When each message is taken up: the time read then, and for a start the time it was issued. */
    static ghost predicate Timely(before: nat, ms: seq<Message>, now: seq<nat>, at: seq<nat>, te: seq<nat>)
      decreases |ms|
    {
      && |now| == |at| == |te| == |ms|
      && (ms != [] ==>
            && now[0] < N && before <= Abs(te[0], now[0]) < before + N
            && (ms[0].StartTimer? ==>
                  ms[0].issued < N && Shows(at[0], ms[0].issued) && at[0] <= Abs(te[0], now[0]) < at[0] + N)
            && (ms[0].ChangeTimer? ==> 0 < ms[0].period < N)
            && Timely(Abs(te[0], now[0]), ms[1..], now[1..], at[1..], te[1..]))
    }

    static ghost predicate PeriodsInRange(timers: map<Id, Timer>) {
      forall t :: t in timers ==> 0 < timers[t].period < N
    }

    static lemma RangeKept(t0: map<Id, Timer>, t1: map<Id, Timer>, m: Message)
      requires m.who in SettingsOf(t0) && SettingsOf(t1) == Configure(SettingsOf(t0), m)
      requires PeriodsInRange(t0) && (m.ChangeTimer? ==> 0 < m.period < N)
      ensures PeriodsInRange(t1)
    {
      var s0, s1 := SettingsOf(t0), SettingsOf(t1);
      forall t | t in t1 ensures 0 < t1[t].period < N {
        assert t in s1 && s1[t].period == t1[t].period;
      }
    }

    /** prvProcessReceivedCommands, for the messages that are on the queue: every timer is left with
        the settings the messages give it. */
    method ProcessReceivedCommands(ms: seq<Message>, now: seq<nat>, ghost at: seq<nat>, ghost te: seq<nat>)
      requires Idle() && PeriodsInRange(timers)
      requires Addressed(SettingsOf(timers), ms) && Timely(clock, ms, now, at, te)
      modifies this
      ensures Idle() && PeriodsInRange(timers)
      ensures SettingsOf(timers) == Configured(SettingsOf(old(timers)), ms)
    {
      hide Idle, PeriodsInRange, SettingsOf, Configure, Shows, Progress;
      ghost var target := Configured(SettingsOf(timers), ms);
      var i := 0;
      while i < |ms|
        invariant i <= |ms| && Idle() && PeriodsInRange(timers)
        invariant |now| == |at| == |te| == |ms| && Timely(clock, ms[i..], now[i..], at[i..], te[i..])
        invariant Addressed(SettingsOf(timers), ms[i..]) && Configured(SettingsOf(timers), ms[i..]) == target
      {
        ghost var t0 := timers;
        ghost var rest := ms[i..];
        assert rest[0] == ms[i] && rest[1..] == ms[i + 1..];
        assert now[i..][0] == now[i] && now[i..][1..] == now[i + 1..];
        assert at[i..][0] == at[i] && at[i..][1..] == at[i + 1..];
        assert te[i..][0] == te[i] && te[i..][1..] == te[i + 1..];
        InRange(timers, ms[i].who);
        Process(ms[i], now[i], at[i], te[i]);
        RangeKept(t0, timers, ms[i]);
        i := i + 1;
      }
    }

    static lemma InRange(timers: map<Id, Timer>, who: Id)
      requires PeriodsInRange(timers) && who in SettingsOf(timers)
      ensures who in timers && 0 < timers[who].period < N
    {
    }
  }
}
