/**
 The retry loop around a side effect (src/director/executor.ts:395-419): at most four
 attempts, only the last of which can succeed, as a method and over all runs of the ledger.
 */
module Retries {
  import opened DecisionPolicy
  import opened DecisionLedger

  // The retry loop itself, against a script of what successive calls do: it stops at the first
  // success or terminal error, and after one attempt more than there are delays.
  method WithTransientRetry(script: seq<TryResult>, delays: nat) returns (used: nat, ok: bool)
    requires |script| > delays
    ensures 1 <= used <= delays + 1
    ensures forall i :: 0 <= i < used - 1 ==> script[i].Throws? && script[i].transient
    ensures ok <==> script[used - 1].Succeeds?
    ensures !ok && script[used - 1].transient ==> used == delays + 1
  {
    var attempt := 0;
    while true
      invariant 0 <= attempt <= delays
      invariant forall i :: 0 <= i < attempt ==> script[i].Throws? && script[i].transient
      decreases delays - attempt
    {
      if script[attempt].Succeeds? { return attempt + 1, true; }
      if attempt >= delays || !script[attempt].transient { return attempt + 1, false; }
      attempt := attempt + 1;
    }
  }

  // ------------------------------------------------------------- over all runs

  // The attempts of one started run, in order: whether each succeeded.
  function TriesOf(log: seq<Try>, k: nat): seq<bool> {
    if log == [] then []
    else TriesOf(log[..|log| - 1], k) + if log[|log| - 1].start == k then [log[|log| - 1].ok] else []
  }

  lemma TriesGrow(log: seq<Try>, t: Try, k: nat)
    ensures TriesOf(log + [t], k) == TriesOf(log, k) + if t.start == k then [t.ok] else []
  {
    assert (log + [t])[..|log|] == log;
  }

  ghost predicate OnlyLastSucceeds(tries: seq<bool>) {
    |tries| <= RETRIES + 1 && forall i :: 0 <= i < |tries| - 1 ==> !tries[i]
  }

  ghost predicate RetriedAt(s: State, k: nat) {
    var tries := TriesOf(s.tries, k);
    && OnlyLastSucceeds(tries)
    && (k >= |s.starts| ==> tries == [] && k !in s.flights)
    && (k in s.flights ==> |tries| == s.flights[k].tries <= RETRIES && forall i :: 0 <= i < |tries| ==> !tries[i])
  }

  ghost predicate Retried(s: State) {
    forall k: nat :: RetriedAt(s, k)
  }

  // Steps that make no attempt start at most one new run.
  lemma NoAttemptKeepsRetried(s: State, after: State)
    requires Retried(s)
    requires after.tries == s.tries && |s.starts| <= |after.starts|
    requires forall k :: k in after.flights ==>
                           || (k in s.flights && after.flights[k] == s.flights[k])
                           || (k == |s.starts| < |after.starts| && after.flights[k].tries == 0)
    ensures Retried(after)
  {
    forall k: nat
      ensures RetriedAt(after, k)
    {
      assert RetriedAt(s, k);
    }
  }

  lemma AttemptKeepsRetried(s: State, k: nat, result: TryResult)
    requires Retried(s)
    ensures Retried(AttemptStep(s, k, result))
  {
    var after := AttemptStep(s, k, result);
    if k in s.flights && s.flights[k].id < |s.rows| {
      var ok := result.Succeeds? && s.rows[s.flights[k].id].kind != AmendCharter;
      var t := Try(k, s.flights[k].id, ok);
      assert after.tries == s.tries + [t] && after.starts == s.starts;
      assert k in after.flights ==> !ok && after.flights[k].tries == s.flights[k].tries + 1 <= RETRIES;
      forall j: nat
        ensures RetriedAt(after, j)
      {
        assert RetriedAt(s, j) && RetriedAt(s, k);
        OneMoreTry(s, after, t, j);
      }
    }
  }

  // One attempt more of a run in flight, which stays in flight only after a failure.
  lemma OneMoreTry(s: State, after: State, t: Try, j: nat)
    requires RetriedAt(s, j) && RetriedAt(s, t.start) && t.start in s.flights
    requires after.tries == s.tries + [t] && after.starts == s.starts
    requires forall k :: k in after.flights && k != t.start ==> k in s.flights && after.flights[k] == s.flights[k]
    requires t.start in after.flights ==>
               !t.ok && after.flights[t.start].tries == s.flights[t.start].tries + 1 <= RETRIES
    ensures RetriedAt(after, j)
  {
    TriesGrow(s.tries, t, j);
  }

  lemma {:induction false} RecordingKeepsRuns(s: State, ps: seq<Proposal>, costs: seq<real>, director: Director, n: nat)
    requires n <= |ps| == |costs|
    ensures var after := RecordAll(s, ps, costs, director, n);
            && after == s.(rows := after.rows, held := after.held)
            && |after.rows| == |s.rows| + n && after.rows[..|s.rows|] == s.rows
  {
    if n > 0 {
      RecordingKeepsRuns(s, ps, costs, director, n - 1);
      var before := RecordAll(s, ps, costs, director, n - 1);
      assert RecordAll(s, ps, costs, director, n).rows[..|s.rows|] == before.rows[..|s.rows|];
    }
  }

  lemma StepKeepsRetried(s: State, e: Event)
    requires Retried(s)
    ensures Retried(Step(s, e))
  {
    match e {
      case Attempt(k, result) => AttemptKeepsRetried(s, k, result);
      case RecordTick(ps, cost, director) =>
        RecordingKeepsRuns(s, ps, Slices(|ps|, cost), director, |ps|);
        NoAttemptKeepsRetried(s, Step(s, e));
      case _ => NoAttemptKeepsRetried(s, Step(s, e));
    }
  }

  lemma {:induction false} RunKeepsRetried(s: State, es: seq<Event>)
    requires Retried(s)
    ensures Retried(Run(s, es))
    decreases |es|
  {
    if es != [] {
      StepKeepsRetried(s, es[0]);
      RunKeepsRetried(Step(s, es[0]), es[1..]);
    }
  }

  lemma RetriesTheorem(es: seq<Event>, k: nat)
    ensures var tries := TriesOf(Run(EMPTY, es).tries, k);
            |tries| <= 4 && forall i :: 0 <= i < |tries| - 1 ==> !tries[i]
  {
    RunKeepsRetried(EMPTY, es);
    assert RetriedAt(Run(EMPTY, es), k);
  }
}
