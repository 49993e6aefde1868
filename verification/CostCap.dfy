/**
 The daily cost cap over concurrent engine calls (src/supervisor/index.ts:77-165,
 src/storage/runs.ts:39-81).  Each repo has one worker and so at most one call in flight; a
 call's cost is recorded only when it ends.
 */
module CostCap {
  import opened Wrappers
  import opened TextOrder

  const DAY := 86400

  // ---------------------------------------------------------------- the window

  // datetime('now') writes 'date clock', toISOString 'dateTclock', and the query compares them
  // as texts: a run of the very day of `since` never counts, whatever its hour.
  lemma DateDecides(startedDate: string, clock: string, sinceDate: string, sinceClock: string)
    requires |startedDate| == |sinceDate|
    ensures !Before(startedDate + " " + clock, sinceDate + "T" + sinceClock)
            <==> startedDate != sinceDate && !Before(startedDate, sinceDate)
  {
    assert startedDate + " " + clock == startedDate + (" " + clock);
    assert sinceDate + "T" + sinceClock == sinceDate + ("T" + sinceClock);
    HeadsDecide(startedDate, sinceDate, " " + clock, "T" + sinceClock);
  }

  function DayOf(t: nat): nat {
    t / DAY
  }

  // started_at >= now - 24h, so compared: dates as day numbers.
  predicate Counts(started: nat, now: nat) {
    now < DAY || DayOf(started) > DayOf(now - DAY)
  }

  // The cap is per UTC day, not per rolling 24 hours.
  lemma WindowIsToday(started: nat, now: nat)
    requires started <= now
    ensures Counts(started, now) <==> DayOf(started) == DayOf(now)
  {
    assert now >= DAY ==> DayOf(now - DAY) == DayOf(now) - 1;
  }

  // -------------------------------------------------------------- the machine

  datatype RunStatus = Running | Ok | Errored

  // A run row: its cost is NULL until it ends, and after an error.
  datatype RunRow = RunRow(started: nat, cost: Option<real>, status: RunStatus)

  // How an engine call ends: with an answer, whose usage may lack a cost, or with an error.
  datatype JobEnd = Answered(cost: Option<real>) | Threw

  // finishRun
  function Finished(r: RunRow, end: JobEnd): RunRow {
    match end
    case Answered(cost) => RunRow(r.started, cost, Ok)
    case Threw => RunRow(r.started, None, Errored)
  }

  // The sweep of recoverStuckTasks over the runs.
  function Orphaned(runs: seq<RunRow>): (r: seq<RunRow>)
    ensures |r| == |runs|
    ensures forall i :: 0 <= i < |runs| ==>
              r[i].started == runs[i].started && r[i].cost == runs[i].cost && r[i].status != Running
  {
    seq(|runs|, i requires 0 <= i < |runs| =>
      if runs[i].status == Running then runs[i].(status := Errored) else runs[i])
  }

  // Which of the repos' workers awaits which run.
  datatype State = State(runs: seq<RunRow>, calls: map<nat, nat>, clock: nat)

  const EMPTY := State([], map[], 0)

  // The cap, the most one call can cost, and the repos with a worker.
  datatype Limits = Limits(cap: real, most: real, repos: set<nat>) {
    ghost predicate Valid() { cap > 0.0 && most >= 0.0 }
  }

  datatype Event =
    | Admit(repo: nat)
    | Ends(repo: nat, end: JobEnd)
    | Pass(seconds: nat)
    | Boot

  function CostOf(r: RunRow): real {
    match r.cost case Some(c) => c case None => 0.0
  }

  function SpentSince(runs: seq<RunRow>, now: nat): real {
    if runs == [] then 0.0
    else
      SpentSince(runs[..|runs| - 1], now)
      + if Counts(runs[|runs| - 1].started, now) then CostOf(runs[|runs| - 1]) else 0.0
  }

  function SpentOn(runs: seq<RunRow>, day: nat): real {
    if runs == [] then 0.0
    else
      SpentOn(runs[..|runs| - 1], day)
      + if DayOf(runs[|runs| - 1].started) == day then CostOf(runs[|runs| - 1]) else 0.0
  }

  predicate CapReached(runs: seq<RunRow>, now: nat, cap: real) {
    cap > 0.0 && SpentSince(runs, now) >= cap
  }

  function Begun(now: nat): RunRow {
    RunRow(now, None, Running)
  }

  function Step(lim: Limits, s: State, e: Event): State {
    match e
    case Admit(repo) =>
      if repo !in lim.repos || repo in s.calls || CapReached(s.runs, s.clock, lim.cap) then s
      else s.(runs := s.runs + [Begun(s.clock)], calls := s.calls[repo := |s.runs|])
    case Ends(repo, end) =>
      if repo !in s.calls || s.calls[repo] >= |s.runs| then s
      else
        var id := s.calls[repo];
        s.(runs := s.runs[id := Finished(s.runs[id], end)], calls := s.calls - {repo})
    case Pass(seconds) => s.(clock := s.clock + seconds)
    case Boot => s.(runs := Orphaned(s.runs), calls := map[])
  }

  function Run(lim: Limits, s: State, es: seq<Event>): State
    decreases |es|
  {
    if es == [] then s else Run(lim, Step(lim, s, es[0]), es[1..])
  }

  predicate Bounded(lim: Limits, e: Event) {
    e.Ends? && e.end.Answered? && e.end.cost.Some? ==> 0.0 <= e.end.cost.value <= lim.most
  }

  // ---------------------------------------------------------------- sums of rows

  lemma {:induction false} TodayIsTheWindow(runs: seq<RunRow>, now: nat)
    requires forall i :: 0 <= i < |runs| ==> runs[i].started <= now
    ensures SpentSince(runs, now) == SpentOn(runs, DayOf(now))
  {
    if runs != [] {
      TodayIsTheWindow(runs[..|runs| - 1], now);
      WindowIsToday(runs[|runs| - 1].started, now);
    }
  }

  lemma {:induction false} SpentUpdates(runs: seq<RunRow>, id: nat, r: RunRow, day: nat)
    requires id < |runs| && r.started == runs[id].started
    ensures SpentOn(runs[id := r], day)
            == SpentOn(runs, day) + if DayOf(r.started) == day then CostOf(r) - CostOf(runs[id]) else 0.0
  {
    var last := |runs| - 1;
    var after := runs[id := r];
    if id < last {
      SpentUpdates(runs[..last], id, r, day);
      assert after[..last] == runs[..last][id := r];
    } else {
      assert after[..last] == runs[..last];
    }
  }

  lemma {:induction false} SpentSame(runs: seq<RunRow>, after: seq<RunRow>, day: nat)
    requires |after| == |runs|
    requires forall i :: 0 <= i < |runs| ==> after[i].started == runs[i].started && after[i].cost == runs[i].cost
    ensures SpentOn(after, day) == SpentOn(runs, day)
  {
    if runs != [] { SpentSame(runs[..|runs| - 1], after[..|runs| - 1], day); }
  }

  lemma SpentAdds(runs: seq<RunRow>, r: RunRow, day: nat)
    ensures SpentOn(runs + [r], day) == SpentOn(runs, day) + if DayOf(r.started) == day then CostOf(r) else 0.0
  {
    assert (runs + [r])[..|runs|] == runs;
  }

  // -------------------------------------------------------------- the invariant

  // Workers whose call in flight was started on this day.
  ghost function Busy(s: State, day: nat): set<nat> {
    set repo | repo in s.calls && s.calls[repo] < |s.runs| && DayOf(s.runs[s.calls[repo]].started) == day
  }

  // The most that n calls can cost.
  function Load(most: real, n: nat): real {
    if n == 0 then 0.0 else Load(most, n - 1) + most
  }

  lemma {:induction false} LoadIsProduct(most: real, n: nat)
    ensures Load(most, n) == most * n as real
  {
    if n > 0 {
      LoadIsProduct(most, n - 1);
      assert n as real == (n - 1) as real + 1.0;
    } else {
      assert n as real == 0.0;
    }
  }

  // What is recorded for a day, plus the most the calls in flight can add to it.
  ghost predicate WithinAt(lim: Limits, s: State, day: nat) {
    SpentOn(s.runs, day) + Load(lim.most, |Busy(s, day)|) < lim.cap + Load(lim.most, |lim.repos|)
  }

  ghost predicate Linked(lim: Limits, s: State) {
    && s.calls.Keys <= lim.repos
    && (forall repo :: repo in s.calls ==>
          && s.calls[repo] < |s.runs|
          && s.runs[s.calls[repo]].cost == None && s.runs[s.calls[repo]].status == Running)
    && (forall a, b :: a in s.calls && b in s.calls && s.calls[a] == s.calls[b] ==> a == b)
    && (forall i :: 0 <= i < |s.runs| ==> s.runs[i].started <= s.clock)
  }

  ghost predicate Within(lim: Limits, s: State) {
    Linked(lim, s) && forall day: nat :: WithinAt(lim, s, day)
  }

  lemma Subset(a: set<nat>, b: set<nat>)
    requires a <= b
    ensures |a| <= |b|
  {
    if a != {} {
      var x :| x in a;
      Subset(a - {x}, b - {x});
    }
  }

  lemma {:induction false} LoadGrows(most: real, n: nat, m: nat)
    requires most >= 0.0 && n <= m
    ensures 0.0 <= Load(most, n) <= Load(most, m)
  {
    if n < m {
      LoadGrows(most, n, m - 1);
    } else if n > 0 {
      LoadGrows(most, n - 1, n - 1);
    }
  }

  function Admitted(s: State, repo: nat): State {
    s.(runs := s.runs + [Begun(s.clock)], calls := s.calls[repo := |s.runs|])
  }

  lemma AdmitIsBusy(s: State, repo: nat, day: nat)
    requires repo !in s.calls
    requires forall r :: r in s.calls ==> s.calls[r] < |s.runs|
    ensures Busy(Admitted(s, repo), day) == Busy(s, day) + if DayOf(s.clock) == day then {repo} else {}
  {
    var after := Admitted(s, repo);
    assert forall r :: r in s.calls ==> after.calls[r] == s.calls[r] && after.runs[s.calls[r]] == s.runs[s.calls[r]];
    assert after.runs[|s.runs|].started == s.clock;
  }

  lemma AdmitAt(lim: Limits, s: State, repo: nat, day: nat)
    requires lim.Valid() && Linked(lim, s) && WithinAt(lim, s, day)
    requires repo in lim.repos && repo !in s.calls && SpentOn(s.runs, DayOf(s.clock)) < lim.cap
    ensures WithinAt(lim, Admitted(s, repo), day)
  {
    SpentAdds(s.runs, Begun(s.clock), day);
    AdmitIsBusy(s, repo, day);
    if day == DayOf(s.clock) {
      Subset(Busy(Admitted(s, repo), day), lim.repos);
      LoadGrows(lim.most, |Busy(Admitted(s, repo), day)|, |lim.repos|);
    }
  }

  lemma AdmitKeepsWithin(lim: Limits, s: State, repo: nat)
    requires lim.Valid() && Within(lim, s)
    ensures Within(lim, Step(lim, s, Admit(repo)))
  {
    TodayIsTheWindow(s.runs, s.clock);
    if repo in lim.repos && repo !in s.calls && SpentOn(s.runs, DayOf(s.clock)) < lim.cap {
      forall day: nat
        ensures WithinAt(lim, Step(lim, s, Admit(repo)), day)
      {
        AdmitAt(lim, s, repo, day);
      }
    }
  }

  lemma EndIsIdle(lim: Limits, s: State, repo: nat, end: JobEnd, day: nat)
    requires Linked(lim, s) && repo in s.calls
    ensures var after := Step(lim, s, Ends(repo, end));
            var own := if DayOf(s.runs[s.calls[repo]].started) == day then {repo} else {};
            Busy(s, day) == Busy(after, day) + own && repo !in Busy(after, day)
  {
    var after := Step(lim, s, Ends(repo, end));
    assert forall i :: 0 <= i < |s.runs| ==> after.runs[i].started == s.runs[i].started;
  }

  // An ending adds at most one call's cost to the day the call was started on.
  lemma EndSpends(lim: Limits, s: State, repo: nat, end: JobEnd, day: nat)
    requires lim.Valid() && Linked(lim, s) && repo in s.calls && Bounded(lim, Ends(repo, end))
    ensures var own := DayOf(s.runs[s.calls[repo]].started) == day;
            SpentOn(Step(lim, s, Ends(repo, end)).runs, day) <= SpentOn(s.runs, day) + if own then lim.most else 0.0
  {
    SpentUpdates(s.runs, s.calls[repo], Finished(s.runs[s.calls[repo]], end), day);
  }

  lemma EndAt(lim: Limits, s: State, repo: nat, end: JobEnd, day: nat)
    requires lim.Valid() && Linked(lim, s) && WithinAt(lim, s, day) && repo in s.calls
    requires Bounded(lim, Ends(repo, end))
    ensures WithinAt(lim, Step(lim, s, Ends(repo, end)), day)
  {
    EndSpends(lim, s, repo, end, day);
    EndIsIdle(lim, s, repo, end, day);
    OneFewer(lim.most, Busy(s, day), Busy(Step(lim, s, Ends(repo, end)), day), repo);
  }

  lemma OneFewer(most: real, busy: set<nat>, left: set<nat>, repo: nat)
    requires repo !in left && (busy == left || busy == left + {repo})
    ensures Load(most, |busy|) == Load(most, |left|) + if busy == left then 0.0 else most
  {
    if busy != left { assert |left + {repo}| == |left| + 1; }
  }

  lemma EndKeepsWithin(lim: Limits, s: State, repo: nat, end: JobEnd)
    requires lim.Valid() && Within(lim, s) && Bounded(lim, Ends(repo, end))
    ensures Within(lim, Step(lim, s, Ends(repo, end)))
  {
    if repo in s.calls {
      forall day: nat
        ensures WithinAt(lim, Step(lim, s, Ends(repo, end)), day)
      {
        EndAt(lim, s, repo, end, day);
      }
    }
  }

  lemma BootKeepsWithin(lim: Limits, s: State)
    requires lim.Valid() && Within(lim, s)
    ensures Within(lim, Step(lim, s, Boot))
  {
    var after := Step(lim, s, Boot);
    forall day: nat
      ensures WithinAt(lim, after, day)
    {
      assert WithinAt(lim, s, day);
      SpentSame(s.runs, after.runs, day);
      assert Busy(after, day) == {};
      LoadGrows(lim.most, 0, |Busy(s, day)|);
    }
  }

  lemma StepKeepsWithin(lim: Limits, s: State, e: Event)
    requires lim.Valid() && Within(lim, s) && Bounded(lim, e)
    ensures Within(lim, Step(lim, s, e))
  {
    match e {
      case Admit(repo) => AdmitKeepsWithin(lim, s, repo);
      case Ends(repo, end) => EndKeepsWithin(lim, s, repo, end);
      case Boot => BootKeepsWithin(lim, s);
      case Pass(seconds) =>
        forall day: nat
          ensures WithinAt(lim, Step(lim, s, e), day)
        {
          assert WithinAt(lim, s, day);
          assert Busy(Step(lim, s, e), day) == Busy(s, day);
        }
    }
  }

  lemma {:induction false} RunKeepsWithin(lim: Limits, s: State, es: seq<Event>)
    requires lim.Valid() && Within(lim, s)
    requires forall i :: 0 <= i < |es| ==> Bounded(lim, es[i])
    ensures Within(lim, Run(lim, s, es))
    decreases |es|
  {
    if es != [] {
      StepKeepsWithin(lim, s, es[0]);
      RunKeepsWithin(lim, Step(lim, s, es[0]), es[1..]);
    }
  }

  lemma EmptyIsWithin(lim: Limits)
    requires lim.Valid()
    ensures Within(lim, EMPTY)
  {
    forall day: nat
      ensures WithinAt(lim, EMPTY, day)
    {
      assert Busy(EMPTY, day) == {};
      LoadGrows(lim.most, 0, |lim.repos|);
    }
  }

  lemma BelowLoad(lim: Limits, s: State, day: nat)
    requires lim.Valid() && Within(lim, s)
    ensures SpentOn(s.runs, day) < lim.cap + Load(lim.most, |lim.repos|)
  {
    assert WithinAt(lim, s, day);
    LoadGrows(lim.most, 0, |Busy(s, day)|);
  }

  // ---------------------------------------------------------------- theorems

  // Overshoot: for K workers and calls of at most c each, the recorded cost of the runs
  // started on one UTC day stays below cap + K * c, in every interleaving.
  lemma CapTheorem(lim: Limits, es: seq<Event>, day: nat)
    requires lim.Valid()
    requires forall i :: 0 <= i < |es| ==> Bounded(lim, es[i])
    ensures SpentOn(Run(lim, EMPTY, es).runs, day) < lim.cap + lim.most * |lim.repos| as real
  {
    EmptyIsWithin(lim);
    RunKeepsWithin(lim, EMPTY, es);
    BelowLoad(lim, Run(lim, EMPTY, es), day);
    LoadIsProduct(lim.most, |lim.repos|);
  }

  ghost predicate InFlight(s: State, i: nat) {
    exists repo :: repo in s.calls && s.calls[repo] == i
  }

  ghost predicate OpenAt(s: State, i: nat)
    requires i < |s.runs|
  {
    s.runs[i].status == Running ==> InFlight(s, i)
  }

  ghost predicate OpenRows(s: State) {
    forall i :: 0 <= i < |s.runs| ==> OpenAt(s, i)
  }

  lemma StepKeepsOpenRows(lim: Limits, s: State, e: Event)
    requires OpenRows(s)
    ensures OpenRows(Step(lim, s, e))
  {
    var after := Step(lim, s, e);
    forall i | 0 <= i < |after.runs|
      ensures OpenAt(after, i)
    {
      if i < |s.runs| {
        assert OpenAt(s, i);
        if InFlight(s, i) {
          var repo :| repo in s.calls && s.calls[repo] == i;
          assert repo in after.calls ==> after.calls[repo] == i;
        }
      } else {
        assert after.calls[e.repo] == i;
      }
    }
  }

  lemma {:induction false} RunKeepsOpenRows(lim: Limits, s: State, es: seq<Event>)
    requires OpenRows(s)
    ensures OpenRows(Run(lim, s, es))
    decreases |es|
  {
    if es != [] {
      StepKeepsOpenRows(lim, s, es[0]);
      RunKeepsOpenRows(lim, Step(lim, s, es[0]), es[1..]);
    }
  }

  // At every point a run row reads running exactly while its call is in flight.
  lemma RunningTheorem(lim: Limits, es: seq<Event>, i: nat)
    requires lim.Valid() && i < |Run(lim, EMPTY, es).runs|
    requires forall i :: 0 <= i < |es| ==> Bounded(lim, es[i])
    ensures var s := Run(lim, EMPTY, es);
            s.runs[i].status == Running <==> InFlight(s, i)
  {
    EmptyIsWithin(lim);
    RunKeepsWithin(lim, EMPTY, es);
    RunKeepsOpenRows(lim, EMPTY, es);
    assert OpenAt(Run(lim, EMPTY, es), i);
  }

  lemma {:induction false} RunSplits(lim: Limits, s: State, es: seq<Event>, fs: seq<Event>)
    ensures Run(lim, s, es + fs) == Run(lim, Run(lim, s, es), fs)
    decreases |es|
  {
    if es == [] {
      assert es + fs == fs;
    } else {
      assert (es + fs)[1..] == es[1..] + fs;
      RunSplits(lim, Step(lim, s, es[0]), es[1..], fs);
    }
  }

  lemma RunOneMore(lim: Limits, s: State, es: seq<Event>, e: Event)
    ensures Run(lim, s, es + [e]) == Step(lim, Run(lim, s, es), e)
  {
    RunSplits(lim, s, es, [e]);
    assert [e][1..] == [];
    assert Run(lim, Step(lim, Run(lim, s, es), e), []) == Step(lim, Run(lim, s, es), e);
  }
}
