/**
 With the analyze lane in front, every recorded patch outcome of an issue was paid for by
 an analyzer verdict of `ready` (src/scheduler/worker.ts:286-318, src/lanes/analyze.ts:246-260).
 */
module GreenLight {
  import opened Wrappers
  import opened Counting
  import opened Lanes

  // A dispatch that may build has the analyze lane enabled.
  predicate AnalyzeFirst(e: Event) {
    e.TakeIssue? && e.labelled && (e.on.patch || e.on.patchMulti) ==> e.on.analyze
  }

  // An unspent green light still stands in the task's decision.
  ghost predicate PaidFor(s: State, issue: nat) {
    Count(s.outcomes, issue) + (if DecisionOf(s, issue) == Analyzed(true) then 1 else 0) <= Count(s.greens, issue)
  }

  ghost predicate AllPaidFor(s: State) {
    && (forall issue: nat :: PaidFor(s, issue))
    && (s.job.Patching? ==> DecisionOf(s, s.job.issue) == Analyzed(true))
  }

  // A patch that records an outcome spends the green light it was dispatched on.
  lemma OutcomeSpends(s: State, after: State, issue: nat)
    requires AllPaidFor(s) && DecisionOf(s, issue) == Analyzed(true)
    requires after.decisions == s.decisions[issue := OtherLane] && !after.job.Patching?
    requires after.outcomes == s.outcomes + [issue] && after.greens == s.greens
    ensures AllPaidFor(after)
  {
    forall i: nat
      ensures PaidFor(after, i)
    {
      assert PaidFor(s, i);
      CountAdds(s.outcomes, issue, i);
    }
  }

  lemma VerdictPays(s: State, after: State, issue: nat, ready: bool)
    requires AllPaidFor(s)
    requires after.decisions == s.decisions[issue := Analyzed(ready)] && !after.job.Patching?
    requires after.outcomes == s.outcomes && after.greens == if ready then s.greens + [issue] else s.greens
    ensures AllPaidFor(after)
  {
    forall i: nat
      ensures PaidFor(after, i)
    {
      assert PaidFor(s, i);
      CountAdds(s.greens, issue, i);
    }
  }

  // Nothing else records outcomes or verdicts; another lane's record can only drop a verdict.
  lemma OthersKeepPaidFor(s: State, after: State)
    requires AllPaidFor(s)
    requires after.outcomes == s.outcomes && after.greens == s.greens
    requires forall t: nat :: DecisionOf(after, t) == DecisionOf(s, t) || DecisionOf(after, t) == OtherLane
    requires after.job.Patching? ==> DecisionOf(after, after.job.issue) == Analyzed(true)
    ensures AllPaidFor(after)
  {
    forall i: nat
      ensures PaidFor(after, i)
    {
      assert PaidFor(s, i);
    }
  }

  lemma PatchKeepsPaidFor(cfg: Config, s: State, result: PatchResult)
    requires AllPaidFor(s)
    ensures AllPaidFor(PatchEndsStep(cfg, s, result))
  {
    var after := PatchEndsStep(cfg, s, result);
    if after.outcomes != s.outcomes {
      OutcomeSpends(s, after, s.job.issue);
    } else {
      OthersKeepPaidFor(s, after);
    }
  }

  lemma AnalyzeKeepsPaidFor(s: State, verdict: Option<bool>)
    requires AllPaidFor(s)
    ensures AllPaidFor(AnalyzeEndsStep(s, verdict))
  {
    var after := AnalyzeEndsStep(s, verdict);
    if s.job.Analyzing? && verdict.Some? {
      VerdictPays(s, after, s.job.issue, verdict.value);
    } else {
      OthersKeepPaidFor(s, after);
    }
  }

  lemma DialogKeepsPaidFor(s: State, result: DialogResult)
    requires AllPaidFor(s)
    ensures AllPaidFor(DialogEndsStep(s, result))
  {
    OthersKeepPaidFor(s, DialogEndsStep(s, result));
  }

  lemma StepKeepsPaidFor(cfg: Config, s: State, e: Event)
    requires AllPaidFor(s) && AnalyzeFirst(e)
    ensures AllPaidFor(Step(cfg, s, e))
  {
    match e {
      case PatchEnds(result) => PatchKeepsPaidFor(cfg, s, result);
      case AnalyzeEnds(verdict) => AnalyzeKeepsPaidFor(s, verdict);
      case DialogEnds(result) => DialogKeepsPaidFor(s, result);
      case _ => OthersKeepPaidFor(s, Step(cfg, s, e));
    }
  }

  lemma {:induction false} RunKeepsPaidFor(cfg: Config, s: State, es: seq<Event>)
    requires AllPaidFor(s)
    requires forall i :: 0 <= i < |es| ==> AnalyzeFirst(es[i])
    ensures AllPaidFor(Run(cfg, s, es))
    decreases |es|
  {
    if es != [] {
      StepKeepsPaidFor(cfg, s, es[0]);
      RunKeepsPaidFor(cfg, Step(cfg, s, es[0]), es[1..]);
    }
  }

  // At every point of a run: no more recorded outcomes than green lights.  Errored patches and
  // patches skipped for an active PR record nothing and leave the green light standing.
  lemma GreenLightTheorem(cfg: Config, es: seq<Event>, issue: nat)
    requires forall i :: 0 <= i < |es| ==> AnalyzeFirst(es[i])
    ensures Count(Run(cfg, EMPTY, es).outcomes, issue) <= Count(Run(cfg, EMPTY, es).greens, issue)
  {
    RunKeepsPaidFor(cfg, EMPTY, es);
    assert PaidFor(Run(cfg, EMPTY, es), issue);
  }

  // A single labelled dispatch with the analyze lane off is enough to lose it.
  lemma AnalyzeIsNeeded(cfg: Config, issue: nat)
    requires cfg.IsIssue(issue)
    ensures var taken := Step(cfg, EMPTY, TakeIssue(issue, true, true, Enabled(false, true, false, false, false)));
            var s := Step(cfg, taken, PatchEnds(NothingCommitted));
            Count(s.outcomes, issue) == 1 && Count(s.greens, issue) == 0
  {
    var taken := Step(cfg, EMPTY, TakeIssue(issue, true, true, Enabled(false, true, false, false, false)));
    assert taken.job.Patching? && taken.job.issue == issue && taken.outcomes == [];
    NothingCommittedIsRecorded(cfg, taken);
    CountAdds([], issue, issue);
  }

  lemma NothingCommittedIsRecorded(cfg: Config, s: State)
    requires s.job.Patching?
    ensures var after := Step(cfg, s, PatchEnds(NothingCommitted));
            after.outcomes == s.outcomes + [s.job.issue] && after.greens == s.greens
  {
  }
}
