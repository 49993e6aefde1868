/**
 The morning digest and its retries (src/director/digest.ts:78-179, 244-316): exponential
 backoff after failures, one settled digest per local day.  Instants are seconds; a local date is a
 day number that comes with the clock.
 */
module Digest {
  import opened Wrappers

  const BASE := 60
  const CAP := 3600

  // computeDigestBackoffMs, in seconds.
  function Backoff(failures: nat): nat {
    if failures <= 1 then BASE else Min(BASE * Power2(failures - 1), CAP)
  }

  function Power2(n: nat): nat {
    if n == 0 then 1 else 2 * Power2(n - 1)
  }

  // An attempt in progress: the instant and local date it was started at.
  datatype Attempt = Attempt(now: int, today: int)

  // `streak` and `settled` are history: the starts of the failed attempts since the last
  // settled one, and the local dates settled by a posted digest or by giving up for the day.
  datatype State = State(
    lastDate: Option<int>,
    next: Option<int>,
    failures: nat,
    running: Option<Attempt>,
    clock: int,
    date: int,
    streak: seq<int>,
    settled: seq<int>)

  const EMPTY := State(None, None, 0, None, 0, 0, [], [])

  // shouldRunDigest, for an enabled digest; `pastHour` is whether the configured local hour is.
  predicate ShouldRun(s: State, pastHour: bool) {
    && !(s.next.Some? && s.clock < s.next.value)
    && pastHour
    && s.lastDate != Some(s.date)
  }

  datatype Ending = Posted | Unsupported | Transient

  datatype Event = Begin(pastHour: bool) | End(ending: Ending) | Crash | Pass(seconds: nat, date: int)

  // Posted, or not to be tried again for its date.
  function Settled(s: State, date: int): State {
    s.(running := None, lastDate := Some(date), next := None, failures := 0, streak := [],
       settled := s.settled + [date])
  }

  // The lease admits one digest at a time; the failure is timed from the attempt's start.
  function Step(s: State, e: Event): State {
    match e
    case Begin(pastHour) =>
      if s.running.Some? || !ShouldRun(s, pastHour) then s else s.(running := Some(Attempt(s.clock, s.date)))
    case End(ending) => (
      match s.running
      case None => s
      case Some(a) =>
        match ending
        case Posted => Settled(s, a.today)
        case Unsupported => Settled(s, a.today)
        case Transient =>
          s.(running := None, failures := s.failures + 1,
             next := Some(a.now + Backoff(s.failures + 1)), streak := s.streak + [a.now])
    )
    case Crash => s.(running := None)
    case Pass(seconds, date) => s.(clock := s.clock + seconds, date := date)
  }

  function Run(s: State, es: seq<Event>): State
    decreases |es|
  {
    if es == [] then s else Run(Step(s, es[0]), es[1..])
  }

  // ---------------------------------------------------------------- backoff

  // How far the k-th retry is from the first failure, at least.
  function After(k: nat): nat {
    if k == 0 then 0 else After(k - 1) + Backoff(k)
  }

  lemma {:induction false} PowersGrow(n: nat)
    ensures Power2(n) >= 1
    ensures n >= 6 ==> Power2(n) >= 64
  {
    if n > 0 { PowersGrow(n - 1); }
    if n == 6 { assert Power2(6) == 2 * Power2(5) == 4 * Power2(4) == 8 * Power2(3); }
  }

  // The table of delays: 1, 2, 4, 8, 16, 32 minutes, then an hour each; never shrinking.
  lemma BackoffTable(n: nat)
    ensures Backoff(1) == 60 && Backoff(2) == 120 && Backoff(3) == 240 && Backoff(4) == 480 && Backoff(5) == 960
            && Backoff(6) == 1920
    ensures n >= 7 ==> Backoff(n) == 3600
    ensures n >= 1 ==> 60 <= Backoff(n) <= Backoff(n + 1) <= 3600
  {
    assert Power2(1) == 2 && Power2(2) == 4;
    assert Power2(3) == 8 && Power2(4) == 16;
    assert Power2(5) == 32;
    if n >= 1 {
      PowersGrow(n - 1);
      PowersGrow(n);
    }
  }

  lemma {:induction false} BackoffGrows(a: nat, b: nat)
    requires 1 <= a <= b
    ensures Backoff(a) <= Backoff(b)
  {
    if a < b {
      BackoffGrows(a, b - 1);
      BackoffTable(b - 1);
    }
  }

  lemma {:induction false} AfterSum(k: nat)
    requires k >= 6
    ensures After(k) == 3780 + (k - 6) * CAP
  {
    BackoffTable(k);
    if k == 6 {
      assert After(2) == 180 && After(4) == 180 + 240 + 480;
      assert After(5) == After(4) + Backoff(5);
      assert After(6) == After(5) + Backoff(6);
    } else {
      AfterSum(k - 1);
    }
  }

  // --------------------------------------------------------------- invariant

  ghost predicate Spaced(streak: seq<int>) {
    forall i :: 0 <= i < |streak| - 1 ==> streak[i] + Backoff(i + 1) <= streak[i + 1]
  }

  ghost predicate Paced(s: State) {
    && |s.streak| == s.failures && Spaced(s.streak)
    && (s.failures == 0 ==> s.next == None)
    && (s.failures > 0 ==> s.next == Some(s.streak[s.failures - 1] + Backoff(s.failures)))
    && (s.running.Some? ==> s.running.value.now <= s.clock && (s.next.Some? ==> s.next.value <= s.running.value.now))
  }

  lemma StepKeepsPaced(s: State, e: Event)
    requires Paced(s)
    ensures Paced(Step(s, e))
  {
  }

  lemma {:induction false} RunKeepsPaced(s: State, es: seq<Event>)
    requires Paced(s)
    ensures Paced(Run(s, es))
    decreases |es|
  {
    if es != [] {
      StepKeepsPaced(s, es[0]);
      RunKeepsPaced(Step(s, es[0]), es[1..]);
    }
  }

  lemma {:induction false} FarApart(streak: seq<int>, i: nat, k: nat)
    requires Spaced(streak) && i + k < |streak|
    ensures streak[i + k] - streak[i] >= After(k)
  {
    if k > 0 {
      FarApart(streak, i, k - 1);
      BackoffGrows(k, i + k);
    }
  }

  // With no success in between: attempts i and i + 1 (from 1) start at least min(2^(i-1), 60)
  // minutes apart, and no 24 hours hold more than 29 failed attempts.
  lemma RetryTheorem(es: seq<Event>, i: nat)
    ensures var streak := Run(EMPTY, es).streak;
            && (1 <= i < |streak| ==> streak[i] - streak[i - 1] >= 60 * Min(Power2(i - 1), 60))
            && (i + 29 < |streak| ==> streak[i + 29] - streak[i] > 24 * 3600)
  {
    RunKeepsPaced(EMPTY, es);
    var streak := Run(EMPTY, es).streak;
    if i + 29 < |streak| {
      FarApart(streak, i, 29);
      AfterSum(29);
    }
  }

  // 29 is reached: failing as early as allowed, the 29th is less than a day after the first.
  lemma TwentyNineFit()
    ensures After(28) < 24 * 3600 < After(29)
  {
    AfterSum(28);
    AfterSum(29);
  }

  // ------------------------------------------------------------- one per day

  // The local dates of a run, after the one it starts on.
  function Dates(es: seq<Event>): seq<int> {
    if es == [] then [] else DateOf(es[0]) + Dates(es[1..])
  }

  function DateOf(e: Event): seq<int> {
    if e.Pass? then [e.date] else []
  }

  // No date is returned to after another one.
  ghost predicate NoReturn(dates: seq<int>) {
    forall i, j, k :: 0 <= i < j < k < |dates| && dates[i] == dates[k] ==> dates[j] == dates[i]
  }

  ghost predicate OnceEach(settled: seq<int>) {
    forall i, j :: 0 <= i < j < |settled| ==> settled[i] != settled[j]
  }

  // Date x was left for date y.
  ghost predicate Left(dates: seq<int>, x: int, y: int) {
    exists i, j :: 0 <= i < j < |dates| && dates[i] == x && dates[j] == y
  }

  // The settled dates were lived through in their order, and the one in progress came last.
  ghost predicate InOrder(s: State, dates: seq<int>) {
    && dates != [] && dates[|dates| - 1] == s.date
    && s.lastDate == (if s.settled == [] then None else Some(s.settled[|s.settled| - 1]))
    && OnceEach(s.settled)
    && (forall x :: x in s.settled ==> x in dates)
    && (forall i, j :: 0 <= i < j < |s.settled| ==> Left(dates, s.settled[i], s.settled[j]))
    && (s.running.Some? ==> Fits(s, dates, s.running.value.today))
  }

  // The date can be settled next.
  ghost predicate Fits(s: State, dates: seq<int>, date: int) {
    date in dates && date !in s.settled && forall x :: x in s.settled ==> Left(dates, x, date)
  }

  lemma LeftMore(dates: seq<int>, date: int, x: int, y: int)
    requires Left(dates, x, y)
    ensures Left(dates + [date], x, y)
  {
    var i, j :| 0 <= i < j < |dates| && dates[i] == x && dates[j] == y;
    assert (dates + [date])[i] == x && (dates + [date])[j] == y;
  }

  lemma PassKeepsOrder(s: State, dates: seq<int>, seconds: nat, date: int)
    requires InOrder(s, dates)
    ensures InOrder(Step(s, Pass(seconds, date)), dates + [date])
  {
    forall i, j | 0 <= i < j < |s.settled|
      ensures Left(dates + [date], s.settled[i], s.settled[j])
    {
      LeftMore(dates, date, s.settled[i], s.settled[j]);
    }
    if s.running.Some? {
      forall x | x in s.settled
        ensures Left(dates + [date], x, s.running.value.today)
      {
        LeftMore(dates, date, x, s.running.value.today);
      }
    }
  }

  // A date that is not the last one settled has not been settled at all.
  lemma BeginFits(s: State, dates: seq<int>)
    requires InOrder(s, dates) && NoReturn(dates) && s.lastDate != Some(s.date)
    ensures Fits(s, dates, s.date)
  {
    var n := |dates| - 1;
    forall i | 0 <= i < |s.settled|
      ensures s.settled[i] != s.date
    {
      var last := |s.settled| - 1;
      if i < last {
        assert Left(dates, s.settled[i], s.settled[last]);
        var a, b :| 0 <= a < b < |dates| && dates[a] == s.settled[i] && dates[b] == s.settled[last];
        assert dates[n] != dates[a];
      }
    }
    forall x | x in s.settled
      ensures Left(dates, x, s.date)
    {
      var i :| 0 <= i < |dates| && dates[i] == x;
      assert i < n;
    }
  }

  lemma SettlingKeepsOrder(s: State, dates: seq<int>, date: int)
    requires InOrder(s, dates) && Fits(s, dates, date)
    ensures InOrder(Settled(s, date), dates)
  {
    var after := Settled(s, date);
    forall i, j | 0 <= i < j < |after.settled|
      ensures Left(dates, after.settled[i], after.settled[j]) && after.settled[i] != after.settled[j]
    {
      assert after.settled[i] == s.settled[i];
      assert s.settled[i] in s.settled;
    }
  }

  lemma {:induction false} RunKeepsOrder(s: State, dates: seq<int>, es: seq<Event>)
    requires InOrder(s, dates) && NoReturn(dates + Dates(es))
    ensures InOrder(Run(s, es), dates + Dates(es))
    decreases |es|
  {
    if es == [] {
      assert dates + Dates(es) == dates;
    } else if es[0].Pass? {
      PassKeepsOrder(s, dates, es[0].seconds, es[0].date);
      assert dates + [es[0].date] + Dates(es[1..]) == dates + Dates(es);
      RunKeepsOrder(Step(s, es[0]), dates + [es[0].date], es[1..]);
    } else {
      assert dates + Dates(es[1..]) == dates + Dates(es);
      assert (dates + Dates(es))[..|dates|] == dates;
      if es[0].Begin? && s.lastDate != Some(s.date) {
        BeginFits(s, dates);
      } else if es[0].End? && s.running.Some? {
        SettlingKeepsOrder(s, dates, s.running.value.today);
      }
      RunKeepsOrder(Step(s, es[0]), dates, es[1..]);
    }
  }

  // A new date, and its digest is posted.
  function Day(date: int): seq<Event> {
    [Pass(0, date)] + ([Begin(true)] + ([End(Posted)] + []))
  }

  // Every day's digest is posted at once.
  function Eager(dates: seq<int>): seq<Event> {
    if dates == [] then [Begin(true)] + ([End(Posted)] + [])
    else Eager(dates[..|dates| - 1]) + Day(dates[|dates| - 1])
  }

  lemma {:induction false} RunSplits(s: State, es: seq<Event>, fs: seq<Event>)
    ensures Run(s, es + fs) == Run(Run(s, es), fs)
    decreases |es|
  {
    if es == [] {
      assert es + fs == fs;
    } else {
      assert (es + fs)[1..] == es[1..] + fs;
      RunSplits(Step(s, es[0]), es[1..], fs);
    }
  }

  lemma {:induction false} DatesSplit(es: seq<Event>, fs: seq<Event>)
    ensures Dates(es + fs) == Dates(es) + Dates(fs)
  {
    if es == [] {
      assert es + fs == fs;
    } else {
      assert (es + fs)[1..] == es[1..] + fs;
      DatesSplit(es[1..], fs);
      var head, rest := DateOf(es[0]), Dates(es[1..]);
      assert head + (rest + Dates(fs)) == (head + rest) + Dates(fs);
    }
  }

  lemma FirstStep(s: State, e: Event, es: seq<Event>)
    ensures Run(s, [e] + es) == Run(Step(s, e), es)
    ensures Dates([e] + es) == DateOf(e) + Dates(es)
  {
    assert ([e] + es)[1..] == es;
  }

  lemma DayDates(d: int)
    ensures Dates(Day(d)) == [d]
  {
    FirstStep(EMPTY, Pass(0, d), [Begin(true)] + ([End(Posted)] + []));
    FirstStep(EMPTY, Begin(true), [End(Posted)] + []);
    FirstStep(EMPTY, End(Posted), []);
  }

  lemma OneDay(s: State, d: int)
    requires s.running == None && s.next == None
    ensures var after := Run(s, Day(d));
            && after.running == None && after.next == None && after.lastDate == Some(d)
            && after.settled == if s.lastDate == Some(d) then s.settled else s.settled + [d]
  {
    var passed := Step(s, Pass(0, d));
    FirstStep(s, Pass(0, d), [Begin(true)] + ([End(Posted)] + []));
    FirstStep(passed, Begin(true), [End(Posted)] + []);
    FirstStep(Step(passed, Begin(true)), End(Posted), []);
  }

  // What such a run has settled tells whether a date was returned to.
  ghost predicate Told(s: State, dates: seq<int>) {
    && dates != [] && s.running == None && s.next == None && s.lastDate == Some(dates[|dates| - 1])
    && (forall x :: x in dates <==> x in s.settled)
    && (OnceEach(s.settled) ==> NoReturn(dates))
  }

  lemma EagerDay(s: State, dates: seq<int>, after: State, d: int)
    requires Told(s, dates)
    requires after.running == None && after.next == None && after.lastDate == Some(d)
    requires after.settled == if s.lastDate == Some(d) then s.settled else s.settled + [d]
    ensures Told(after, dates + [d])
  {
    if OnceEach(after.settled) {
      var n := |s.settled|;
      assert forall i, j :: 0 <= i < j < n ==> after.settled[i] == s.settled[i] && after.settled[j] == s.settled[j];
      assert OnceEach(s.settled);
      if dates[|dates| - 1] != d {
        assert forall i :: 0 <= i < n ==> after.settled[i] == s.settled[i] && after.settled[n] == d;
        assert d !in s.settled;
        assert forall i :: 0 <= i < |dates| ==> dates[i] in dates;
      }
    }
  }

  lemma EagerStart()
    ensures var s := Run(EMPTY, Eager([]));
            && s.running == None && s.next == None && s.date == 0
            && s.lastDate == Some(0) && s.settled == [0] && Dates(Eager([])) == []
  {
    FirstStep(EMPTY, Begin(true), [End(Posted)] + []);
    FirstStep(Step(EMPTY, Begin(true)), End(Posted), []);
  }

  lemma {:induction false} EagerDates(dates: seq<int>)
    ensures Dates(Eager(dates)) == dates
  {
    if dates == [] {
      EagerStart();
    } else {
      var n := |dates| - 1;
      EagerDates(dates[..n]);
      DatesSplit(Eager(dates[..n]), Day(dates[n]));
      DayDates(dates[n]);
      assert dates == dates[..n] + [dates[n]];
    }
  }

  lemma {:induction false} EagerTells(dates: seq<int>, all: seq<int>)
    requires all == [0] + dates
    ensures Told(Run(EMPTY, Eager(dates)), all)
  {
    if dates == [] {
      EagerStart();
      assert all == [0];
    } else {
      var n := |dates| - 1;
      var front, before := all[..n + 1], Run(EMPTY, Eager(dates[..n]));
      assert front == [0] + dates[..n] && all[n + 1] == dates[n] && all == front + [dates[n]];
      EagerTells(dates[..n], front);
      TellsMore(before, front, dates[n]);
      RunSplits(EMPTY, Eager(dates[..n]), Day(dates[n]));
    }
  }

  lemma TellsMore(s: State, dates: seq<int>, d: int)
    requires Told(s, dates)
    ensures Told(Run(s, Day(d)), dates + [d])
  {
    OneDay(s, d);
    EagerDay(s, dates, Run(s, Day(d)), d);
  }

  // Whatever else happens while the local date goes through `dates`: no date is settled twice,
  // exactly when no date is returned to after another one.
  lemma OncePerDateIff(dates: seq<int>)
    ensures (forall es: seq<Event> :: Dates(es) == dates ==> OnceEach(Run(EMPTY, es).settled))
            <==> NoReturn([0] + dates)
  {
    if NoReturn([0] + dates) {
      forall es: seq<Event> | Dates(es) == dates
        ensures OnceEach(Run(EMPTY, es).settled)
      {
        RunKeepsOrder(EMPTY, [0], es);
      }
    } else {
      EagerTells(dates, [0] + dates);
      EagerDates(dates);
      assert Dates(Eager(dates)) == dates && !OnceEach(Run(EMPTY, Eager(dates)).settled);
    }
  }

  ghost predicate NeverBack(dates: seq<int>) {
    forall i, j :: 0 <= i < j < |dates| ==> dates[i] <= dates[j]
  }

  // A local date that never goes back is one such trajectory.
  lemma OncePerDateTheorem(es: seq<Event>, i: nat, j: nat)
    requires NeverBack([0] + Dates(es))
    requires i < |Run(EMPTY, es).settled| && j < |Run(EMPTY, es).settled|
    requires Run(EMPTY, es).settled[i] == Run(EMPTY, es).settled[j]
    ensures i == j
  {
    var dates := [0] + Dates(es);
    forall a, b, c | 0 <= a < b < c < |dates| && dates[a] == dates[c]
      ensures dates[b] == dates[a]
    {
      assert dates[a] <= dates[b] <= dates[c];
    }
    assert OnceEach(Run(EMPTY, es).settled) by { OncePerDateIff(Dates(es)); }
  }

  // A timezone change that moves the date back and forth posts twice for one date: with
  // today's digest posted, a day back and forward again makes two more.
  lemma DateMayNotGoBack(s: State)
    requires s.running == None && s.next == None && s.lastDate == Some(s.date)
    ensures var back := Step(Step(Step(s, Pass(0, s.date - 1)), Begin(true)), End(Posted));
            var forth := Step(Step(Step(back, Pass(0, s.date)), Begin(true)), End(Posted));
            forth.settled == s.settled + [s.date - 1] + [s.date]
  {
  }

  // ----------------------------------------------------------------- the row

  class DigestRow {
    var lastDate: Option<int>
    var next: Option<int>
    var failures: nat
    var running: Option<Attempt>
    var clock: int
    var date: int
    ghost var streak: seq<int>
    ghost var settled: seq<int>

    ghost function View(): State
      reads this
    {
      State(lastDate, next, failures, running, clock, date, streak, settled)
    }

    constructor ()
      ensures View() == EMPTY
    {
      lastDate, next, failures, running, clock, date := None, None, 0, None, 0, 0;
      streak, settled := [], [];
    }

    // maybeRunDigest up to the engine call.
    method TryBegin(pastHour: bool) returns (begun: bool)
      modifies this`running
      ensures View() == Step(old(View()), Begin(pastHour))
      ensures begun <==> old(running) == None && ShouldRun(old(View()), pastHour)
    {
      if running.Some? { return false; }
      if next.Some? && clock < next.value { return false; }
      if !pastHour || lastDate == Some(date) { return false; }
      running := Some(Attempt(clock, date));
      begun := true;
    }

    // runDigest after the engine call.
    method Finish(ending: Ending)
      requires running.Some?
      modifies this
      ensures View() == Step(old(View()), End(ending))
    {
      var a := running.value;
      running := None;
      match ending {
        case Posted =>
          lastDate := Some(a.today);
          failures, next := 0, None;
          settled, streak := settled + [a.today], [];
        case Unsupported =>
          lastDate := Some(a.today);
          failures, next := 0, None;
          settled, streak := settled + [a.today], [];
        case Transient =>
          var projected := failures + 1;
          next := Some(a.now + Backoff(projected));
          failures := failures + 1;
          streak := streak + [a.now];
      }
    }
  }
}
