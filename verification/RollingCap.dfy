/**
 The cost of a rolling day (src/supervisor/index.ts:77-85).  The cap is checked per UTC day, so
 for 24 hours that touch two of them the bound of one day can fail; for the others it holds.
 */
module RollingCap {
  import opened Wrappers
  import opened CostCap

  // Started in the 24 hours up to `t`.
  predicate InWindow(started: nat, t: nat) {
    t < started + DAY && started <= t
  }

  function SpentBefore(runs: seq<RunRow>, t: nat): real {
    if runs == [] then 0.0
    else
      var r := runs[|runs| - 1];
      SpentBefore(runs[..|runs| - 1], t) + if InWindow(r.started, t) then CostOf(r) else 0.0
  }

  // ------------------------------------------------------------ where it holds

  ghost predicate CostsWithin(lim: Limits, runs: seq<RunRow>) {
    forall i :: 0 <= i < |runs| ==> 0.0 <= CostOf(runs[i]) <= lim.most
  }

  lemma {:induction false} RunKeepsCosts(lim: Limits, s: State, es: seq<Event>)
    requires lim.Valid() && CostsWithin(lim, s.runs)
    requires forall i :: 0 <= i < |es| ==> Bounded(lim, es[i])
    ensures CostsWithin(lim, Run(lim, s, es).runs)
    decreases |es|
  {
    if es != [] { RunKeepsCosts(lim, Step(lim, s, es[0]), es[1..]); }
  }

  lemma {:induction false} NoReposNoRuns(lim: Limits, s: State, es: seq<Event>)
    requires lim.repos == {} && s.runs == []
    ensures Run(lim, s, es).runs == []
    decreases |es|
  {
    if es != [] { NoReposNoRuns(lim, Step(lim, s, es[0]), es[1..]); }
  }

  lemma {:induction false} TwoDaysCover(lim: Limits, runs: seq<RunRow>, t: nat)
    requires CostsWithin(lim, runs)
    ensures 0.0 <= SpentBefore(runs, t)
    ensures SpentBefore(runs, t) <= SpentOn(runs, DayOf(t)) + if DayOf(t) > 0 then SpentOn(runs, DayOf(t) - 1) else 0.0
  {
    if runs != [] { TwoDaysCover(lim, runs[..|runs| - 1], t); }
  }

  predicate InOneDay(t: nat) {
    t < DAY || t % DAY == DAY - 1
  }

  lemma {:induction false} OneDayCovers(lim: Limits, runs: seq<RunRow>, t: nat)
    requires CostsWithin(lim, runs) && InOneDay(t)
    ensures SpentBefore(runs, t) <= SpentOn(runs, DayOf(t))
  {
    if runs != [] {
      OneDayCovers(lim, runs[..|runs| - 1], t);
      WindowOfOneDay(runs[|runs| - 1].started, t);
    }
  }

  lemma WindowOfOneDay(started: nat, t: nat)
    requires InOneDay(t)
    ensures InWindow(started, t) ==> DayOf(started) == DayOf(t)
  {
  }

  lemma {:induction false} FreeCalls(lim: Limits, runs: seq<RunRow>, t: nat)
    requires CostsWithin(lim, runs) && lim.most == 0.0
    ensures SpentBefore(runs, t) == 0.0
  {
    if runs != [] { FreeCalls(lim, runs[..|runs| - 1], t); }
  }

  // Any 24 hours touch two UTC days, and twice the bound is what they get.
  lemma RollingTheorem(lim: Limits, es: seq<Event>, t: nat)
    requires lim.Valid()
    requires forall i :: 0 <= i < |es| ==> Bounded(lim, es[i])
    ensures SpentBefore(Run(lim, EMPTY, es).runs, t) < 2.0 * (lim.cap + lim.most * |lim.repos| as real)
  {
    CapTheorem(lim, es, DayOf(t));
    CapTheorem(lim, es, Max(DayOf(t) - 1, 0));
    RunKeepsCosts(lim, EMPTY, es);
    TwoDaysCover(lim, Run(lim, EMPTY, es).runs, t);
    BoundIsPositive(lim);
  }

  lemma BoundIsPositive(lim: Limits)
    requires lim.Valid()
    ensures 0.0 < lim.cap + lim.most * |lim.repos| as real
  {
    LoadGrows(lim.most, 0, |lim.repos|);
    LoadIsProduct(lim.most, |lim.repos|);
  }

  // ------------------------------------------------------------- where it fails

  lemma BeforeAdds(runs: seq<RunRow>, r: RunRow, t: nat)
    ensures SpentBefore(runs + [r], t) == SpentBefore(runs, t) + if InWindow(r.started, t) then CostOf(r) else 0.0
  {
    assert (runs + [r])[..|runs|] == runs;
  }

  lemma SinceAdds(runs: seq<RunRow>, r: RunRow, now: nat)
    ensures SpentSince(runs + [r], now) == SpentSince(runs, now) + if Counts(r.started, now) then CostOf(r) else 0.0
  {
    assert (runs + [r])[..|runs|] == runs;
  }

  lemma {:induction false} BeforeUpdates(runs: seq<RunRow>, id: nat, r: RunRow, t: nat)
    requires id < |runs| && r.started == runs[id].started
    ensures SpentBefore(runs[id := r], t)
            == SpentBefore(runs, t) + if InWindow(r.started, t) then CostOf(r) - CostOf(runs[id]) else 0.0
  {
    var last := |runs| - 1;
    if id < last {
      BeforeUpdates(runs[..last], id, r, t);
      assert runs[id := r][..last] == runs[..last][id := r];
    } else {
      assert runs[id := r][..last] == runs[..last];
    }
  }

  // What a stretch of calls at one instant has done.
  ghost predicate Grown(s: State, after: State, t: nat, spent: real) {
    after.clock == s.clock && SpentBefore(after.runs, t) == SpentBefore(s.runs, t) + spent
  }

  ghost predicate AllBounded(lim: Limits, es: seq<Event>) {
    forall i :: 0 <= i < |es| ==> Bounded(lim, es[i])
  }

  // One call after another, each at the full price.
  lemma OneCall(lim: Limits, s: State, repo: nat, t: nat) returns (es: seq<Event>)
    requires s.calls == map[] && repo in lim.repos && lim.most >= 0.0
    requires SpentSince(s.runs, s.clock) < lim.cap && InWindow(s.clock, t)
    ensures AllBounded(lim, es)
    ensures var after := Run(lim, s, es);
            && after == s.(runs := after.runs) && Grown(s, after, t, lim.most)
            && SpentSince(after.runs, s.clock) == SpentSince(s.runs, s.clock) + lim.most
            && (forall i :: 0 <= i < |after.runs| ==> after.runs[i] in s.runs || after.runs[i].started == s.clock)
  {
    var end := Ends(repo, Answered(Some(lim.most)));
    es := [Admit(repo)] + [end];
    RunOneMore(lim, s, [], Admit(repo));
    assert [] + [Admit(repo)] == [Admit(repo)];
    RunOneMore(lim, s, [Admit(repo)], end);
    var admitted := Step(lim, s, Admit(repo));
    var r := RunRow(s.clock, Some(lim.most), Ok);
    assert admitted.runs[|s.runs| := r] == s.runs + [r];
    assert admitted.calls - {repo} == map[];
    BeforeAdds(s.runs, r, t);
    SinceAdds(s.runs, r, s.clock);
  }

  // Calls until one more would reach the cap.
  lemma {:induction false} FillUp(lim: Limits, s: State, repo: nat, t: nat, n: nat) returns (es: seq<Event>)
    requires s.calls == map[] && repo in lim.repos && lim.most > 0.0
    requires SpentSince(s.runs, s.clock) < lim.cap <= SpentSince(s.runs, s.clock) + Load(lim.most, n)
    requires InWindow(s.clock, t) && forall i :: 0 <= i < |s.runs| ==> s.runs[i].started == s.clock
    ensures AllBounded(lim, es)
    ensures var after := Run(lim, s, es);
            && after == s.(runs := after.runs)
            && SpentSince(after.runs, s.clock) < lim.cap <= SpentSince(after.runs, s.clock) + lim.most
            && Grown(s, after, t, SpentSince(after.runs, s.clock) - SpentSince(s.runs, s.clock))
            && forall i :: 0 <= i < |after.runs| ==> after.runs[i].started == s.clock
    decreases n
  {
    if SpentSince(s.runs, s.clock) + lim.most >= lim.cap {
      es := [];
    } else {
      var first := OneCall(lim, s, repo, t);
      var mid := Run(lim, s, first);
      var rest := FillUp(lim, mid, repo, t, n - 1);
      es := first + rest;
      RunSplits(lim, s, first, rest);
    }
  }

  // The repo's call in flight was admitted now, and has no row in common with another one.
  ghost predicate NowAt(s: State, repo: nat) {
    repo in s.calls ==>
      && s.calls[repo] < |s.runs| && s.runs[s.calls[repo]].cost == None
      && forall other :: other in s.calls && other != repo ==> s.calls[other] != s.calls[repo]
  }

  ghost predicate AllNow(s: State) {
    (forall i :: 0 <= i < |s.runs| ==> s.runs[i].started == s.clock) && forall repo: nat :: NowAt(s, repo)
  }

  lemma OneEvent(lim: Limits, s: State, e: Event)
    ensures Run(lim, s, [e]) == Step(lim, s, e)
  {
    RunOneMore(lim, s, [], e);
    assert [] + [e] == [e];
  }

  // All of `todo` have been admitted, and nothing has been spent yet.
  ghost predicate AdmittedAll(s: State, after: State, todo: set<nat>, t: nat) {
    && after.calls.Keys == s.calls.Keys + todo && AllNow(after) && Grown(s, after, t, 0.0)
    && SpentSince(after.runs, after.clock) == SpentSince(s.runs, s.clock)
  }

  lemma AdmitKeepsNow(s: State, repo: nat)
    requires repo !in s.calls && AllNow(s)
    ensures AllNow(Admitted(s, repo))
  {
    forall r: nat
      ensures NowAt(Admitted(s, repo), r)
    {
      assert NowAt(s, r);
      assert forall other :: other in s.calls ==> NowAt(s, other);
    }
  }

  lemma AdmitOne(lim: Limits, s: State, repo: nat, t: nat)
    requires repo in lim.repos && repo !in s.calls && AllNow(s)
    requires SpentSince(s.runs, s.clock) < lim.cap
    ensures AdmittedAll(s, Run(lim, s, [Admit(repo)]), {repo}, t)
  {
    OneEvent(lim, s, Admit(repo));
    assert Step(lim, s, Admit(repo)) == Admitted(s, repo);
    AdmitKeepsNow(s, repo);
    BeforeAdds(s.runs, Begun(s.clock), t);
    SinceAdds(s.runs, Begun(s.clock), s.clock);
  }

  lemma AdmittedMore(s: State, next: State, after: State, repo: nat, todo: set<nat>, t: nat)
    requires repo in todo && AdmittedAll(s, next, {repo}, t) && AdmittedAll(next, after, todo - {repo}, t)
    ensures AdmittedAll(s, after, todo, t)
  {
    assert s.calls.Keys + {repo} + (todo - {repo}) == s.calls.Keys + todo;
  }

  ghost predicate CanAdmit(lim: Limits, s: State, todo: set<nat>) {
    && todo <= lim.repos && AllNow(s) && SpentSince(s.runs, s.clock) < lim.cap
    && (forall repo :: repo in todo ==> repo !in s.calls)
  }

  lemma AdmitFirst(lim: Limits, s: State, repo: nat, todo: set<nat>, t: nat)
    requires CanAdmit(lim, s, todo) && repo in todo
    ensures var next := Run(lim, s, [Admit(repo)]);
            AdmittedAll(s, next, {repo}, t) && CanAdmit(lim, next, todo - {repo})
  {
    AdmitOne(lim, s, repo, t);
  }

  lemma {:induction false} AdmitAll(lim: Limits, s: State, todo: set<nat>, t: nat) returns (es: seq<Event>)
    requires CanAdmit(lim, s, todo)
    ensures AllBounded(lim, es) && AdmittedAll(s, Run(lim, s, es), todo, t)
    decreases |todo|
  {
    if todo == {} {
      es := [];
    } else {
      var repo :| repo in todo;
      AdmitFirst(lim, s, repo, todo, t);
      var rest := AdmitAll(lim, Run(lim, s, [Admit(repo)]), todo - {repo}, t);
      es := AdmitThen(lim, s, repo, rest, todo, t);
    }
  }

  lemma AdmitThen(lim: Limits, s: State, repo: nat, rest: seq<Event>, todo: set<nat>, t: nat) returns (es: seq<Event>)
    requires repo in todo && AllBounded(lim, rest)
    requires AdmittedAll(s, Run(lim, s, [Admit(repo)]), {repo}, t)
    requires var next := Run(lim, s, [Admit(repo)]); AdmittedAll(next, Run(lim, next, rest), todo - {repo}, t)
    ensures AllBounded(lim, es) && AdmittedAll(s, Run(lim, s, es), todo, t)
  {
    var next := Run(lim, s, [Admit(repo)]);
    es := [Admit(repo)] + rest;
    RunSplits(lim, s, [Admit(repo)], rest);
    AdmittedMore(s, next, Run(lim, next, rest), repo, todo, t);
  }

  lemma EndKeepsNow(lim: Limits, s: State, repo: nat, end: JobEnd)
    requires repo in s.calls && AllNow(s)
    ensures AllNow(Step(lim, s, Ends(repo, end)))
  {
    forall r: nat
      ensures NowAt(Step(lim, s, Ends(repo, end)), r)
    {
      assert NowAt(s, r) && NowAt(s, repo);
    }
  }

  lemma EndOne(lim: Limits, s: State, repo: nat, t: nat)
    requires repo in s.calls && AllNow(s) && InWindow(s.clock, t)
    ensures var next := Step(lim, s, Ends(repo, Answered(Some(lim.most))));
            next.calls.Keys == s.calls.Keys - {repo} && AllNow(next) && Grown(s, next, t, lim.most)
  {
    assert NowAt(s, repo);
    EndKeepsNow(lim, s, repo, Answered(Some(lim.most)));
    BeforeUpdates(s.runs, s.calls[repo], Finished(s.runs[s.calls[repo]], Answered(Some(lim.most))), t);
  }

  lemma {:induction false} EndAll(lim: Limits, s: State, t: nat) returns (es: seq<Event>)
    requires AllNow(s) && lim.most >= 0.0 && InWindow(s.clock, t)
    ensures AllBounded(lim, es)
    ensures var after := Run(lim, s, es);
            after.calls == map[] && AllNow(after) && Grown(s, after, t, Load(lim.most, |s.calls.Keys|))
    decreases |s.calls.Keys|
  {
    if s.calls.Keys == {} {
      es := [];
    } else {
      var repo :| repo in s.calls;
      var end := Ends(repo, Answered(Some(lim.most)));
      EndOne(lim, s, repo, t);
      OneEvent(lim, s, end);
      var rest := EndAll(lim, Step(lim, s, end), t);
      es := [end] + rest;
      RunSplits(lim, s, [end], rest);
    }
  }

  lemma {:induction false} NothingYet(runs: seq<RunRow>, day: nat)
    requires forall i :: 0 <= i < |runs| ==> DayOf(runs[i].started) < day
    ensures SpentOn(runs, day) == 0.0
  {
    if runs != [] { NothingYet(runs[..|runs| - 1], day); }
  }

  // Enough calls to reach the cap exist.
  lemma EnoughCalls(lim: Limits) returns (n: nat)
    requires lim.cap > 0.0 && lim.most > 0.0
    ensures lim.cap <= Load(lim.most, n)
  {
    var share := lim.cap / lim.most;
    assert share * lim.most == lim.cap;
    n := share.Floor + 1;
    LoadIsProduct(lim.most, n);
    AtLeast(lim.most, share, n as real);
  }

  lemma AtLeast(most: real, share: real, n: real)
    requires most > 0.0 && share <= n
    ensures share * most <= most * n
  {
    assert (n - share) * most >= 0.0;
  }

  // In the last second of a day: up to the cap, and then all workers at once.
  lemma LastSecond(lim: Limits, s: State, repo: nat, t: nat) returns (es: seq<Event>)
    requires lim.Valid() && lim.most > 0.0 && repo in lim.repos
    requires s.runs == [] && s.calls == map[] && InWindow(s.clock, t)
    ensures AllBounded(lim, es)
    ensures var after := Run(lim, s, es);
            && after.calls == map[] && after.clock == s.clock
            && SpentBefore(after.runs, t) + lim.most >= lim.cap + Load(lim.most, |lim.repos|)
            && forall i :: 0 <= i < |after.runs| ==> after.runs[i].started == s.clock
  {
    var n := EnoughCalls(lim);
    var fill := FillUp(lim, s, repo, t, n);
    var full := Run(lim, s, fill);
    var admit := AdmitAll(lim, full, lim.repos, t);
    var busy := Run(lim, full, admit);
    var end := EndAll(lim, busy, t);
    assert busy.calls.Keys == lim.repos;
    es := fill + (admit + end);
    RunSplits(lim, full, admit, end);
    RunSplits(lim, s, fill, admit + end);
  }

  // One more call after midnight passes the bound.
  lemma MidnightRun(lim: Limits, t: nat) returns (es: seq<Event>)
    requires lim.Valid() && lim.most > 0.0 && lim.repos != {} && !InOneDay(t)
    ensures AllBounded(lim, es)
    ensures SpentBefore(Run(lim, EMPTY, es).runs, t) >= lim.cap + Load(lim.most, |lim.repos|)
  {
    var repo :| repo in lim.repos;
    var midnight := DayOf(t) * DAY;
    assert midnight >= DAY && midnight <= t < midnight + DAY - 1;
    var wait := Pass(midnight - 1);
    var s := Step(lim, EMPTY, wait);
    var evening := LastSecond(lim, s, repo, t);
    var late := Run(lim, s, evening);
    var next := Step(lim, late, Pass(1));
    assert forall i :: 0 <= i < |late.runs| ==> DayOf(late.runs[i].started) < DayOf(midnight);
    NothingYet(late.runs, DayOf(midnight));
    TodayIsTheWindow(next.runs, next.clock);
    var morning := OneCall(lim, next, repo, t);
    es := [wait] + (evening + ([Pass(1)] + morning));
    assert ([Pass(1)] + morning)[1..] == morning;
    assert Run(lim, late, [Pass(1)] + morning) == Run(lim, next, morning);
    RunSplits(lim, s, evening, [Pass(1)] + morning);
    assert es[1..] == evening + ([Pass(1)] + morning);
  }

  // ----------------------------------------------------------------- the theorem

  ghost predicate Bound(lim: Limits, es: seq<Event>, t: nat) {
    AllBounded(lim, es) ==> SpentBefore(Run(lim, EMPTY, es).runs, t) < lim.cap + lim.most * |lim.repos| as real
  }

  // The bound of one day holds of the 24 hours up to `t`, in every run, exactly when they fall
  // on one UTC day, or calls are free, or there is nobody to call.
  lemma RollingIff(lim: Limits, t: nat)
    requires lim.Valid()
    ensures (forall es: seq<Event> :: Bound(lim, es, t)) <==> InOneDay(t) || lim.most == 0.0 || lim.repos == {}
  {
    LoadIsProduct(lim.most, |lim.repos|);
    if InOneDay(t) || lim.most == 0.0 || lim.repos == {} {
      forall es: seq<Event>
        ensures Bound(lim, es, t)
      {
        if AllBounded(lim, es) { BoundHolds(lim, es, t); }
      }
    } else {
      var es := MidnightRun(lim, t);
      assert !Bound(lim, es, t);
    }
  }

  lemma BoundHolds(lim: Limits, es: seq<Event>, t: nat)
    requires lim.Valid() && AllBounded(lim, es)
    requires InOneDay(t) || lim.most == 0.0 || lim.repos == {}
    ensures SpentBefore(Run(lim, EMPTY, es).runs, t) < lim.cap + lim.most * |lim.repos| as real
  {
    var runs := Run(lim, EMPTY, es).runs;
    RunKeepsCosts(lim, EMPTY, es);
    BoundIsPositive(lim);
    if InOneDay(t) {
      CapTheorem(lim, es, DayOf(t));
      OneDayCovers(lim, runs, t);
    } else if lim.most == 0.0 {
      FreeCalls(lim, runs, t);
    } else {
      NoReposNoRuns(lim, EMPTY, es);
    }
  }
}
