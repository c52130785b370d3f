/**
  The arithmetic of the software timer service (timers.c): where prvInsertTimerInActiveList
  puts a timer, and how the callbacks made so far follow from the time.
*/
module TimerRules {
  import opened Rings
  import opened Ticks
  import opened TimedLists

  datatype Decision = ProcessNow | OnOverflow | OnCurrent

  /** The tests of prvInsertTimerInActiveList. */
  function Decide(next: nat, now: nat, command: nat, period: nat): Decision
    requires next < N && now < N && command < N
  {
    if next <= now then
      if Minus(now, command) >= period then ProcessNow else OnOverflow
    else
      if now < command && next >= command then ProcessNow else OnCurrent
  }

  /** For a command less than a full turn of the counter old, the timer is processed now
      exactly if it has expired, and otherwise goes on the list of the epoch it expires in. */
  lemma DecideIsExact(ce: nat, command: nat, period: nat, epoch: nat, now: nat)
    requires command < N && now < N && 0 < period < N
    requires Abs(ce, command) <= Abs(epoch, now) < Abs(ce, command) + N
    ensures var next, expiry := Plus(command, period), Abs(ce, command) + period;
            match Decide(next, now, command, period)
            case ProcessNow => expiry <= Abs(epoch, now)
            case OnOverflow => Abs(epoch, now) < expiry == Abs(epoch + 1, next)
            case OnCurrent => Abs(epoch, now) < expiry == Abs(epoch, next)
  {
  }

  /** A tick value is what the counter shows at an absolute time. */
  ghost predicate Shows(at: nat, tick: nat) {
    tick < N && exists e: nat :: at == Abs(e, tick)
  }

  lemma ShowsNext(at: nat, tick: nat, period: nat)
    requires Shows(at, tick) && period < N
    ensures Shows(at + period, Plus(tick, period))
  {
    var e: nat :| at == Abs(e, tick);
    if tick + period < N {
      assert at + period == Abs(e, Plus(tick, period));
    } else {
      assert at + period == Abs(e + 1, Plus(tick, period));
    }
  }

  /** However old the command, the verdict is right exactly if the command is less than a full
      turn old, or its period is over in tick arithmetic too. */
  lemma DecideIsExactIff(ce: nat, command: nat, period: nat, epoch: nat, now: nat)
    requires command < N && now < N && 0 < period < N
    requires Abs(ce, command) <= Abs(epoch, now)
    ensures var verdict := Decide(Plus(command, period), now, command, period);
            (verdict == ProcessNow <==> Abs(ce, command) + period <= Abs(epoch, now)) <==>
            (Abs(epoch, now) < Abs(ce, command) + N || Minus(now, command) >= period)
  {
  }

  /** A command a whole turn and one tick old, for a period of 2: the timer has long expired, and
      is put on the current list all the same. */
  lemma OldCommandIsMisjudged()
    ensures Abs(0, 0) + 2 <= Abs(1, 1) && Decide(Plus(0, 2), 1, 0, 2) == OnCurrent
  {
  }

  /** A timer and what it has done since it was last started: due is when its next callback is. */
  datatype History = History(start: nat, fired: nat, due: nat)

  ghost predicate OnSchedule(h: History, period: nat) {
    h.due == h.start + (h.fired + 1) * period
  }

  function Started(start: nat, period: nat): History {
    History(start, 0, start + period)
  }

  function Fired(h: History, period: nat): History {
    History(h.start, h.fired + 1, h.due + period)
  }

  lemma StaysOnSchedule(h: History, start: nat, period: nat)
    ensures OnSchedule(h, period) ==> OnSchedule(Fired(h, period), period)
    ensures OnSchedule(Started(start, period), period)
  {
    assert (h.fired + 2) * period == (h.fired + 1) * period + period;
  }

  /** If the next callback lies ahead and the one before it does not, the callbacks made are
      the periods gone by. */
  lemma FiredIsFloor(h: History, period: nat, now: nat)
    requires 0 < period && OnSchedule(h, period)
    requires now < h.due <= now + period
    ensures now >= h.start && h.fired == (now - h.start) / period
  {
    var gone := now - h.start;
    assert h.fired * period <= gone < h.fired * period + period by {
      assert (h.fired + 1) * period == h.fired * period + period;
    }
    Quotient(gone, h.fired, period);
  }

  lemma Quotient(a: nat, q: nat, d: nat)
    requires 0 < d && q * d <= a < q * d + d
    ensures a / d == q
  {
    assert a == d * (a / d) + a % d;
    Ordered(a / d, q, d);
    Ordered(q, a / d, d);
  }

  lemma Ordered(x: nat, y: nat, d: nat)
    requires 0 < d
    ensures x < y ==> d * x + d <= d * y
  {
    if x < y {
      var gap := y - x - 1;
      assert d * y == d * x + d + d * gap;
    }
  }

  /** The list a timer with an absolute expiry time belongs on. */
  function Enlist(current: seq<Entry>, overflow: seq<Entry>, epoch: nat, who: Id, due: nat): (seq<Entry>, seq<Entry>)
    requires Abs(epoch, 0) <= due < Abs(epoch + 2, 0)
  {
    if due < Abs(epoch + 1, 0) then (InsertSorted(current, Entry(who, due - Abs(epoch, 0))), overflow)
    else (current, InsertSorted(overflow, Entry(who, due - Abs(epoch + 1, 0))))
  }

  // ---- What holds of every timer on a list ----

  datatype Timer = Timer(period: nat, auto: bool, active: bool)

  /** An entry shows when its timer's next callback is due, and the one before is not ahead of the clock. */
  ghost predicate Tracked(x: Entry, epoch: nat, timers: map<Id, Timer>, history: map<Id, History>, clock: nat) {
    && x.value < N && x.who in timers && x.who in history
    && timers[x.who].active && 0 < timers[x.who].period < N
    && OnSchedule(history[x.who], timers[x.who].period)
    && history[x.who].due == Abs(epoch, x.value)
    && history[x.who].due <= clock + timers[x.who].period
  }

  ghost predicate AllTracked(s: seq<Entry>, epoch: nat, timers: map<Id, Timer>, history: map<Id, History>, clock: nat) {
    forall i :: 0 <= i < |s| ==> Tracked(s[i], epoch, timers, history, clock)
  }

  lemma TrackedFrame(s: seq<Entry>, epoch: nat, timers: map<Id, Timer>, history: map<Id, History>, clock: nat,
                     who: Id, t: Timer, h: History)
    requires AllTracked(s, epoch, timers, history, clock) && !Has(s, who)
    ensures AllTracked(s, epoch, timers[who := t], history[who := h], clock)
  {
  }

  lemma TrackedInsert(s: seq<Entry>, x: Entry, epoch: nat, timers: map<Id, Timer>, history: map<Id, History>,
                      clock: nat)
    requires AllTracked(s, epoch, timers, history, clock) && Tracked(x, epoch, timers, history, clock)
    ensures AllTracked(InsertSorted(s, x), epoch, timers, history, clock)
  {
    hide Tracked;
  }

  lemma TrackedCut(s: seq<Entry>, who: Id, epoch: nat, timers: map<Id, Timer>, history: map<Id, History>, clock: nat)
    requires AllTracked(s, epoch, timers, history, clock)
    ensures AllTracked(Without(s, who), epoch, timers, history, clock)
  {
    hide Tracked;
  }

  lemma TrackedLater(s: seq<Entry>, epoch: nat, timers: map<Id, Timer>, history: map<Id, History>, clock: nat,
                     later: nat)
    requires AllTracked(s, epoch, timers, history, clock) && clock <= later
    ensures AllTracked(s, epoch, timers, history, later)
  {
  }

  /** Each list ascends, and no timer is on it twice or on both. */
  ghost predicate WellKept(current: seq<Entry>, overflow: seq<Entry>) {
    && Ascending(current) && Ascending(overflow)
    && Separate(current) && Separate(overflow)
    && forall i, j :: 0 <= i < |current| && 0 <= j < |overflow| ==> current[i].who != overflow[j].who
  }

  ghost predicate Absent(current: seq<Entry>, overflow: seq<Entry>, who: Id) {
    !Has(current, who) && !Has(overflow, who)
  }

  lemma EnlistKeeps(current: seq<Entry>, overflow: seq<Entry>, epoch: nat, who: Id, due: nat,
                    timers: map<Id, Timer>, history: map<Id, History>, clock: nat)
    requires AllTracked(current, epoch, timers, history, clock)
    requires AllTracked(overflow, epoch + 1, timers, history, clock)
    requires WellKept(current, overflow) && Absent(current, overflow, who)
    requires Abs(epoch, 0) <= due < Abs(epoch + 2, 0)
    requires who in timers && timers[who].active && 0 < timers[who].period < N && due <= clock + timers[who].period
    requires who in history && OnSchedule(history[who], timers[who].period) && history[who].due == due
    ensures var (c, o) := Enlist(current, overflow, epoch, who, due);
            && AllTracked(c, epoch, timers, history, clock)
            && AllTracked(o, epoch + 1, timers, history, clock)
            && WellKept(c, o)
  {
    hide AllTracked, InsertSorted, OnSchedule;
    if due < Abs(epoch + 1, 0) {
      var x := Entry(who, due - Abs(epoch, 0));
      TrackedInsert(current, x, epoch, timers, history, clock);
      WellKeptInsert(current, overflow, x);
    } else {
      var x := Entry(who, due - Abs(epoch + 1, 0));
      TrackedInsert(overflow, x, epoch + 1, timers, history, clock);
      WellKeptInsert(overflow, current, x);
    }
  }

  lemma InsertOwners(s: seq<Entry>, x: Entry, who: Id)
    ensures Has(InsertSorted(s, x), who) <==> Has(s, who) || who == x.who
  {
    hide InsertPos, Values;
    var p := InsertPos(Values(s), x.value);
    var t := InsertSorted(s, x);
    assert t[p] == x;
    if Has(s, who) {
      var i :| 0 <= i < |s| && s[i].who == who;
      assert t[if i < p then i else i + 1] == s[i];
    }
    if Has(t, who) && who != x.who {
      var i :| 0 <= i < |t| && t[i].who == who;
      assert t[i] == s[if i < p then i else i - 1];
    }
  }

  lemma WellKeptInsert(s: seq<Entry>, other: seq<Entry>, x: Entry)
    requires WellKept(s, other) && Absent(s, other, x.who)
    ensures WellKept(InsertSorted(s, x), other) && WellKept(other, InsertSorted(s, x))
  {
    hide InsertSorted, Separate, Ascending;
    InsertKeepsOrder(s, x);
    InsertKeepsSeparate(s, x);
    var t := InsertSorted(s, x);
    forall i, j | 0 <= i < |t| && 0 <= j < |other| ensures t[i].who != other[j].who {
      InsertOwners(s, x, t[i].who);
    }
  }

  lemma WellKeptCut(s: seq<Entry>, other: seq<Entry>, who: Id)
    requires WellKept(s, other) || WellKept(other, s)
    ensures WellKept(Without(s, who), other) && WellKept(other, Without(s, who))
    ensures !Has(Without(s, who), who)
  {
    WithoutFacts(s, who);
  }

  /** Taking a timer off the lists leaves the others tracked, whatever is recorded for it then. */
  lemma AfterRemoval(current: seq<Entry>, overflow: seq<Entry>, epoch: nat, timers: map<Id, Timer>,
                     history: map<Id, History>, clock: nat, who: Id, t: Timer, h: History)
    requires AllTracked(current, epoch, timers, history, clock)
    requires AllTracked(overflow, epoch + 1, timers, history, clock)
    requires WellKept(current, overflow)
    ensures var (c, o) := (Without(current, who), Without(overflow, who));
            && AllTracked(c, epoch, timers[who := t], history[who := h], clock)
            && AllTracked(o, epoch + 1, timers[who := t], history[who := h], clock)
            && WellKept(c, o) && Absent(c, o, who)
  {
    hide AllTracked, WellKept, Has, Without;
    WellKeptCut(current, overflow, who);
    WellKeptCut(overflow, Without(current, who), who);
    TrackedCut(current, who, epoch, timers, history, clock);
    TrackedCut(overflow, who, epoch + 1, timers, history, clock);
    TrackedFrame(Without(current, who), epoch, timers, history, clock, who, t, h);
    TrackedFrame(Without(overflow, who), epoch + 1, timers, history, clock, who, t, h);
  }

  lemma HeadIsElsewhereAbsent(current: seq<Entry>, overflow: seq<Entry>)
    requires WellKept(current, overflow) && current != []
    ensures !Has(overflow, current[0].who) && Without(overflow, current[0].who) == overflow
  {
  }

  /** Every active timer is on a list, but for those a command has taken off, which are on none. */
  ghost predicate Complete(timers: map<Id, Timer>, current: seq<Entry>, overflow: seq<Entry>, loose: set<Id>) {
    && (forall t :: t in timers && timers[t].active && t !in loose ==> !Absent(current, overflow, t))
    && (forall t :: t in loose ==> Absent(current, overflow, t))
  }

  lemma WithoutOwners(s: seq<Entry>, who: Id, other: Id)
    requires other != who
    ensures Has(Without(s, who), other) <==> Has(s, other)
  {
    hide Separate;
    var i := IndexFrom(s, who, 0);
    if i < |s| {
      var t := Cut(s, i);
      if Has(s, other) {
        var j :| 0 <= j < |s| && s[j].who == other;
        assert t[if j < i then j else j - 1] == s[j];
      }
      if Has(t, other) {
        var j :| 0 <= j < |t| && t[j].who == other;
        assert t[j] == s[if j < i then j else j + 1];
      }
    }
  }

  lemma CompleteRemoval(timers: map<Id, Timer>, current: seq<Entry>, overflow: seq<Entry>, loose: set<Id>,
                        who: Id, t: Timer)
    requires Complete(timers, current, overflow, loose)
    requires WellKept(current, overflow)
    ensures Complete(timers[who := t], Without(current, who), Without(overflow, who), loose + {who})
  {
    hide Has, Without, WellKept;
    WellKeptCut(current, overflow, who);
    WellKeptCut(overflow, current, who);
    forall other | other != who
      ensures Absent(Without(current, who), Without(overflow, who), other) <==> Absent(current, overflow, other)
    {
      WithoutOwners(current, who, other);
      WithoutOwners(overflow, who, other);
    }
  }

  lemma CompleteEnlist(timers: map<Id, Timer>, current: seq<Entry>, overflow: seq<Entry>, loose: set<Id>,
                       epoch: nat, who: Id, due: nat)
    requires Complete(timers, current, overflow, loose + {who}) && who !in loose
    requires Abs(epoch, 0) <= due < Abs(epoch + 2, 0)
    ensures var (c, o) := Enlist(current, overflow, epoch, who, due);
            Complete(timers, c, o, loose) && !Absent(c, o, who)
  {
    hide Has, InsertSorted;
    var (c, o) := Enlist(current, overflow, epoch, who, due);
    forall other ensures Absent(c, o, other) <==> Absent(current, overflow, other) && other != who {
      InsertOwners(current, Entry(who, if due < Abs(epoch + 1, 0) then due - Abs(epoch, 0) else 0), other);
      InsertOwners(overflow, Entry(who, if due < Abs(epoch + 1, 0) then 0 else due - Abs(epoch + 1, 0)), other);
    }
  }

  /** When no timer on the current list has expired, every periodic timer on a list has made
      one callback for each whole period since it was started. */
  lemma CaughtUp(current: seq<Entry>, overflow: seq<Entry>, epoch: nat, now: nat,
                 timers: map<Id, Timer>, history: map<Id, History>, who: Id)
    requires AllTracked(current, epoch, timers, history, Abs(epoch, now))
    requires AllTracked(overflow, epoch + 1, timers, history, Abs(epoch, now))
    requires now < N && forall i :: 0 <= i < |current| ==> now < current[i].value
    requires !Absent(current, overflow, who)
    ensures who in history && who in timers && 0 < timers[who].period && history[who].start <= Abs(epoch, now)
    ensures history[who].fired == (Abs(epoch, now) - history[who].start) / timers[who].period
  {
    hide OnSchedule;
    if Has(current, who) {
      var i :| 0 <= i < |current| && current[i].who == who;
      assert Tracked(current[i], epoch, timers, history, Abs(epoch, now));
      FiredIsFloor(history[who], timers[who].period, Abs(epoch, now));
    } else {
      var i :| 0 <= i < |overflow| && overflow[i].who == who;
      assert Tracked(overflow[i], epoch + 1, timers, history, Abs(epoch, now));
      FiredIsFloor(history[who], timers[who].period, Abs(epoch, now));
    }
  }

  // ---- What may happen to a timer while the service works ----

  /** An idle timer stays as it is; an active periodic timer only makes callbacks; an active
      one-shot timer makes its one callback, not before it is due, and becomes idle. */
  ghost predicate Moves(a: Timer, ha: History, b: Timer, hb: History, clock: nat) {
    && b.period == a.period && b.auto == a.auto && hb.start == ha.start
    && if !a.active then b == a && hb == ha
       else if a.auto then b.active && hb.fired >= ha.fired
       else (b == a && hb == ha) || (!b.active && hb.fired == ha.fired + 1 && ha.due <= clock)
  }

  ghost predicate Progress(was: map<Id, Timer>, h0: map<Id, History>, now: map<Id, Timer>, h1: map<Id, History>,
                           loose: set<Id>, clock: nat) {
    forall t :: t in was && t !in loose ==>
      && t in now
      && (t in h0 ==> t in h1 && Moves(was[t], h0[t], now[t], h1[t], clock))
      && (t !in h0 ==> now[t] == was[t])
  }

  /** And what a command has in hand is left alone. */
  ghost predicate LeftAlone(was: map<Id, Timer>, h0: map<Id, History>, now: map<Id, Timer>, h1: map<Id, History>,
                            loose: set<Id>) {
    forall t :: t in was && t in loose ==> t in now && now[t] == was[t] && (t in h0 ==> t in h1 && h1[t] == h0[t])
  }

  lemma ProgressAddsUp(t0: map<Id, Timer>, h0: map<Id, History>, t1: map<Id, Timer>, h1: map<Id, History>,
                       t2: map<Id, Timer>, h2: map<Id, History>, loose: set<Id>, clock: nat)
    requires Progress(t0, h0, t1, h1, loose, clock) && Progress(t1, h1, t2, h2, loose, clock)
    requires forall t :: t in h1 ==> t in h0
    ensures Progress(t0, h0, t2, h2, loose, clock)
  {
  }

  lemma NothingDone(t: map<Id, Timer>, h: map<Id, History>, loose: set<Id>, clock: nat)
    ensures Progress(t, h, t, h, loose, clock) && LeftAlone(t, h, t, h, loose)
  {
  }

  lemma AloneAddsUp(t0: map<Id, Timer>, h0: map<Id, History>, t1: map<Id, Timer>, h1: map<Id, History>,
                    t2: map<Id, Timer>, h2: map<Id, History>, loose: set<Id>)
    requires LeftAlone(t0, h0, t1, h1, loose) && LeftAlone(t1, h1, t2, h2, loose)
    ensures LeftAlone(t0, h0, t2, h2, loose)
  {
  }

  /** With the current list empty the two may change places. */
  lemma ListsChange(overflow: seq<Entry>, epoch: nat, timers: map<Id, Timer>, history: map<Id, History>, clock: nat,
                    loose: set<Id>)
    requires WellKept([], overflow) && Complete(timers, [], overflow, loose)
    ensures WellKept(overflow, []) && Complete(timers, overflow, [], loose) && AllTracked([], epoch, timers, history, clock)
  {
    hide Has;
  }

  lemma ProgressButOne(t0: map<Id, Timer>, h0: map<Id, History>, t1: map<Id, Timer>, h1: map<Id, History>,
                       clock: nat, who: Id, t: Timer, h: History)
    requires Progress(t0, h0, t1, h1, {who}, clock)
    ensures Progress(t0, h0, t1[who := t], h1[who := h], {who}, clock)
  {
  }

  /** One timer that moves as it may is progress, and leaves what a command has in hand alone. */
  lemma ProgressOfOne(t0: map<Id, Timer>, h0: map<Id, History>, who: Id, t: Timer, h: History, loose: set<Id>, clock: nat)
    requires who in t0 && who in h0 && who !in loose && Moves(t0[who], h0[who], t, h, clock)
    ensures Progress(t0, h0, t0[who := t], h0[who := h], loose, clock)
    ensures LeftAlone(t0, h0, t0[who := t], h0[who := h], loose)
  {
  }

  /** The head of the current list has expired: it is off the lists, or back on the list of its
      next expiry, and the lists are as they should be again. */
  lemma AfterExpiry(current: seq<Entry>, overflow: seq<Entry>, epoch: nat, timers: map<Id, Timer>,
                    history: map<Id, History>, clock: nat, loose: set<Id>, t: Timer, h: History)
    requires current != [] && current[0].who !in loose
    requires AllTracked(current, epoch, timers, history, clock)
    requires AllTracked(overflow, epoch + 1, timers, history, clock)
    requires WellKept(current, overflow) && Complete(timers, current, overflow, loose)
    requires t.active ==> 0 < t.period < N && OnSchedule(h, t.period)
    requires t.active ==> Abs(epoch, 0) <= h.due < Abs(epoch + 2, 0) && h.due <= clock + t.period
    ensures var who, ts, hs := current[0].who, timers[current[0].who := t], history[current[0].who := h];
            var (c, o) := if t.active then Enlist(Without(current, who), overflow, epoch, who, h.due)
                          else (Without(current, who), overflow);
            && AllTracked(c, epoch, ts, hs, clock) && AllTracked(o, epoch + 1, ts, hs, clock)
            && WellKept(c, o) && Complete(ts, c, o, loose)
  {
    hide AllTracked, WellKept, Complete, Without, Enlist, OnSchedule, Absent;
    var who := current[0].who;
    HeadIsElsewhereAbsent(current, overflow);
    AfterRemoval(current, overflow, epoch, timers, history, clock, who, t, h);
    CompleteRemoval(timers, current, overflow, loose, who, t);
    if t.active {
      CompleteEnlist(timers[who := t], Without(current, who), overflow, loose, epoch, who, h.due);
      EnlistKeeps(Without(current, who), overflow, epoch, who, h.due, timers[who := t], history[who := h], clock);
    } else {
      NoLongerLoose(timers[who := t], Without(current, who), overflow, loose, who);
    }
  }

  /** An idle timer need not be on a list. */
  lemma NoLongerLoose(timers: map<Id, Timer>, current: seq<Entry>, overflow: seq<Entry>, loose: set<Id>, who: Id)
    requires Complete(timers, current, overflow, loose + {who}) && (who in timers ==> !timers[who].active)
    ensures Complete(timers, current, overflow, loose)
  {
    hide Absent;
  }

  // ---- What commands leave of a timer's settings ----

  datatype Setting = Setting(period: nat, auto: bool)

  /** A message on the timer queue; issued is the time at which a start was commanded. */
  datatype Message =
    | StartTimer(who: Id, issued: nat)
    | StopTimer(who: Id)
    | ChangeTimer(who: Id, period: nat)
    | DeleteTimer(who: Id, dynamic: bool)

  function SettingsOf(timers: map<Id, Timer>): map<Id, Setting> {
    map t | t in timers :: Setting(timers[t].period, timers[t].auto)
  }

  /** The only commands that touch settings are the change of a period and a deletion. */
  function Configure(s: map<Id, Setting>, m: Message): map<Id, Setting>
    requires m.who in s
  {
    match m
    case StartTimer(who, issued) => s
    case StopTimer(who) => s
    case ChangeTimer(who, period) => s[who := Setting(period, s[who].auto)]
    case DeleteTimer(who, dynamic) => if dynamic then map t | t in s && t != who :: s[t] else s
  }

  /** The first k messages are for timers that exist when their turn comes. */
  ghost predicate Addressed(s: map<Id, Setting>, ms: seq<Message>)
    decreases |ms|
  {
    ms == [] || (ms[0].who in s && Addressed(Configure(s, ms[0]), ms[1..]))
  }

  ghost function Configured(s: map<Id, Setting>, ms: seq<Message>): map<Id, Setting>
    requires Addressed(s, ms)
    decreases |ms|
  {
    if ms == [] then s else Configured(Configure(s, ms[0]), ms[1..])
  }

  /** The last period a run of messages gives a timer, if any does. */
  function LastPeriod(ms: seq<Message>, who: Id, before: nat): nat
    decreases |ms|
  {
    if ms == [] then before
    else LastPeriod(ms[1..], who, if ms[0].ChangeTimer? && ms[0].who == who then ms[0].period else before)
  }

  /** Whatever the messages are, a timer that is left has the period of the last change, or the one
      it was created with, and the reload flag it was created with. */
  lemma {:induction false} SettingsAreTheLastGiven(s: map<Id, Setting>, ms: seq<Message>, who: Id)
    requires Addressed(s, ms)
    ensures who in Configured(s, ms) ==>
              who in s && Configured(s, ms)[who] == Setting(LastPeriod(ms, who, s[who].period), s[who].auto)
    ensures who in s && (forall i :: 0 <= i < |ms| ==> !(ms[i].DeleteTimer? && ms[i].dynamic && ms[i].who == who)) ==>
              who in Configured(s, ms)
    decreases |ms|
  {
    if ms != [] {
      var rest := ms[1..];
      assert forall i :: 0 <= i < |rest| ==> rest[i] == ms[i + 1];
      SettingsAreTheLastGiven(Configure(s, ms[0]), rest, who);
    }
  }

  lemma ProgressKeepsSettings(t0: map<Id, Timer>, h0: map<Id, History>, t1: map<Id, Timer>, h1: map<Id, History>,
                              who: Id, clock: nat)
    requires Progress(t0, h0, t1, h1, {who}, clock) && t1.Keys == t0.Keys && who in t0
    ensures SettingsOf(t1) == SettingsOf(t0)[who := Setting(t1[who].period, t1[who].auto)]
  {
    forall t | t in t0 && t != who ensures t in t1 && t1[t].period == t0[t].period && t1[t].auto == t0[t].auto {
    }
  }

  /** A timer that is on no list may go. */
  lemma TrackedGone(s: seq<Entry>, epoch: nat, timers: map<Id, Timer>, history: map<Id, History>, clock: nat, who: Id)
    requires AllTracked(s, epoch, timers, history, clock) && !Has(s, who)
    ensures AllTracked(s, epoch, map t | t in timers && t != who :: timers[t], history, clock)
  {
  }
}
