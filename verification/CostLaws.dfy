/**
 What the admission of engine calls promises, in the words of the code (src/supervisor/index.ts:
 77-165, src/storage/runs.ts:39-81, src/scheduler/index.ts:88-99).
 */
module CostLaws {
  import opened Wrappers
  import opened CostCap

  // A row adds what it cost to the day it was started on, and nothing as long as its cost is
  // unknown.
  lemma SpentByRow(runs: seq<RunRow>, r: RunRow, day: nat)
    ensures SpentOn([], day) == 0.0
    ensures SpentOn(runs + [r], day)
            == SpentOn(runs, day) + if r.started / 86400 == day && r.cost.Some? then r.cost.value else 0.0
  {
    SpentAdds(runs, r, day);
  }

  // A call is refused exactly when there is a cap and the runs of the current UTC day have cost
  // as much; another call of the repo in flight cannot be, and is not started over.
  lemma AdmittedCall(lim: Limits, s: State, repo: nat)
    requires forall i :: 0 <= i < |s.runs| ==> s.runs[i].started <= s.clock
    ensures var after := Step(lim, s, Admit(repo));
            if repo in lim.repos && repo !in s.calls && (lim.cap <= 0.0 || SpentOn(s.runs, s.clock / 86400) < lim.cap)
            then && after.runs == s.runs + [RunRow(s.clock, None, Running)]
                 && after.calls == s.calls[repo := |s.runs|] && after.clock == s.clock
            else after == s
  {
    TodayIsTheWindow(s.runs, s.clock);
  }

  // The row of a call that ends reads ok, with the cost the engine reported if it did, or error
  // without one; the repo can call again.
  lemma EndedCall(lim: Limits, s: State, repo: nat, end: JobEnd)
    requires repo in s.calls && s.calls[repo] < |s.runs|
    ensures var after, id := Step(lim, s, Ends(repo, end)), s.calls[repo];
            && after.calls == s.calls - {repo} && after.clock == s.clock
            && after.runs == s.runs[id := after.runs[id]] && after.runs[id].started == s.runs[id].started
            && (end.Answered? ==> after.runs[id].status == Ok && after.runs[id].cost == end.cost)
            && (end.Threw? ==> after.runs[id].status == Errored && after.runs[id].cost == None)
  {
  }

  // A restart turns the rows left running into errors and leaves the others alone.
  lemma RestartedLedger(lim: Limits, s: State, i: nat, seconds: nat)
    requires i < |s.runs|
    ensures var after := Step(lim, s, Boot);
            && after.calls == map[] && after.clock == s.clock && |after.runs| == |s.runs|
            && after.runs[i] == if s.runs[i].status == Running then s.runs[i].(status := Errored) else s.runs[i]
    ensures Step(lim, s, Pass(seconds)) == s.(clock := s.clock + seconds)
  {
  }
}
