/**
 A decision's side effect is run once.  Nothing in the code guards a decision that a tick or
 an approval has in hand against a second approval, so this holds of runs in which humans
 leave such decisions alone, and the lemmas at the end show it is lost otherwise
 (src/director/executor.ts:68-112, 493-623, src/director/tick.ts:285-310).
 */
module SingleRun {
  import opened Counting
  import opened DecisionPolicy
  import opened DecisionLedger

  // Successful attempts of a decision.
  function Successes(log: seq<Try>, id: nat): nat {
    if log == [] then 0
    else Successes(log[..|log| - 1], id) + if log[|log| - 1].id == id && log[|log| - 1].ok then 1 else 0
  }

  lemma SuccessesGrow(log: seq<Try>, t: Try, id: nat)
    ensures Successes(log + [t], id) == Successes(log, id) + if t.id == id && t.ok then 1 else 0
  {
    assert (log + [t])[..|log|] == log;
  }

  // A run ends in one of these outcomes.
  predicate Ended(r: Row) {
    r.outcome == Executed || r.outcome == Failed
  }

  predicate Undecided(r: Row) {
    r.outcome == Pending || r.outcome == Expired
  }

  // The account of one decision: every started run was lost, is in progress or has ended it.
  ghost predicate AccountAt(s: State, id: nat) {
    if id >= |s.rows| then
      !InHand(s, id) && Count(s.starts, id) == Count(s.losses, id) == 0 == Successes(s.tries, id)
    else
      && Count(s.starts, id) == Count(s.losses, id) + (if Flying(s, id) || Ended(s.rows[id]) then 1 else 0)
      && Successes(s.tries, id) == (if s.rows[id].outcome == Executed then 1 else 0)
      && (InHand(s, id) ==> Undecided(s.rows[id]))
      && (id in s.held ==> !Flying(s, id))
  }

  ghost predicate OneFlightEach(s: State) {
    && (forall k :: k in s.flights ==> k < |s.starts|)
    && forall j, k :: j in s.flights && k in s.flights && s.flights[j].id == s.flights[k].id ==> j == k
  }

  ghost predicate Accounted(s: State) {
    OneFlightEach(s) && forall id: nat :: AccountAt(s, id)
  }

  // ------------------------------------------------------------- preservation

  // Steps that start, end and lose no run.
  lemma QuietKeepsAccount(s: State, after: State)
    requires Accounted(s)
    requires after.flights == s.flights && after.starts == s.starts && after.losses == s.losses
             && after.tries == s.tries
    requires |s.rows| <= |after.rows|
    requires forall id :: 0 <= id < |s.rows| && after.rows[id].outcome != s.rows[id].outcome ==>
                            && !Ended(s.rows[id]) && !Ended(after.rows[id])
                            && (InHand(after, id) ==> Undecided(after.rows[id]))
    requires forall id :: |s.rows| <= id < |after.rows| ==>
                            || after.rows[id].outcome == Pending
                            || (after.rows[id].outcome == Skipped && id !in after.held)
    requires forall id :: id in after.held && id !in s.held ==> |s.rows| <= id < |after.rows|
    ensures Accounted(after)
  {
    forall id: nat
      ensures AccountAt(after, id)
    {
      assert AccountAt(s, id);
    }
  }

  lemma StartKeepsAccount(s: State, after: State, id: nat, director: Director, approved: bool, payload: Payload)
    requires Accounted(s)
    requires id < |s.rows| == |after.rows| && !Ended(s.rows[id]) && !Flying(s, id)
    requires after == StartRun(s.(rows := after.rows, held := s.held - {id}), id, director, approved, payload)
    requires after.rows == s.rows[id := s.rows[id].(payload := after.rows[id].payload)]
    requires Undecided(s.rows[id])
    ensures Accounted(after)
  {
    var k := |s.starts|;
    assert after.flights[k].id == id;
    forall d: nat
      ensures AccountAt(after, d)
    {
      assert AccountAt(s, d);
      CountAdds(s.starts, id, d);
      assert forall j :: j in s.flights ==> after.flights[j] == s.flights[j];
      assert d != id ==> (Flying(after, d) <==> Flying(s, d));
    }
  }

  lemma FlightGone(s: State, after: State, k: nat)
    requires OneFlightEach(s) && k in s.flights && after.flights == s.flights - {k}
    ensures forall id: nat :: Flying(after, id) <==> Flying(s, id) && id != s.flights[k].id
  {
    forall id: nat
      ensures Flying(after, id) <==> Flying(s, id) && id != s.flights[k].id
    {
      if Flying(s, id) && id != s.flights[k].id {
        var j :| j in s.flights && s.flights[j].id == id;
        assert j in after.flights;
      }
    }
  }

  lemma EndKeepsAccount(s: State, after: State, k: nat, ok: bool)
    requires Accounted(s) && k in s.flights && s.flights[k].id < |s.rows|
    requires after.flights == s.flights - {k} && after.held == s.held
    requires after.starts == s.starts && after.losses == s.losses
    requires after.tries == s.tries + [Try(k, s.flights[k].id, ok)]
    requires var id := s.flights[k].id;
             after.rows == s.rows[id := s.rows[id].(outcome := if ok then Executed else Failed)]
    ensures Accounted(after)
  {
    FlightGone(s, after, k);
    assert Flying(s, s.flights[k].id);
    forall d: nat
      ensures AccountAt(after, d)
    {
      assert AccountAt(s, d) && AccountAt(s, s.flights[k].id);
      SuccessesGrow(s.tries, Try(k, s.flights[k].id, ok), d);
    }
  }

  lemma RetryKeepsAccount(s: State, after: State, k: nat)
    requires Accounted(s) && k in s.flights && k in after.flights
    requires after.rows == s.rows && after.held == s.held
    requires after.flights == s.flights[k := s.flights[k].(tries := after.flights[k].tries)]
    requires after.starts == s.starts && after.losses == s.losses
    requires after.tries == s.tries + [Try(k, s.flights[k].id, false)]
    ensures Accounted(after)
  {
    forall d: nat
      ensures AccountAt(after, d)
    {
      assert AccountAt(s, d);
      SuccessesGrow(s.tries, Try(k, s.flights[k].id, false), d);
      assert forall j :: j in s.flights ==> after.flights[j].id == s.flights[j].id;
      assert Flying(after, d) <==> Flying(s, d);
    }
  }

  lemma AttemptKeepsAccount(s: State, k: nat, result: TryResult)
    requires Accounted(s)
    ensures Accounted(AttemptStep(s, k, result))
  {
    var after := AttemptStep(s, k, result);
    if k in s.flights && s.flights[k].id < |s.rows| {
      if k in after.flights {
        RetryKeepsAccount(s, after, k);
      } else {
        EndKeepsAccount(s, after, k, result.Succeeds? && s.rows[s.flights[k].id].kind != AmendCharter);
      }
    }
  }

  lemma LossAt(s: State, after: State, lost: nat, d: nat)
    requires AccountAt(s, d) && Flying(s, lost)
    requires after.rows == s.rows && after.held == s.held && after.starts == s.starts && after.tries == s.tries
    requires after.losses == s.losses + [lost]
    requires Flying(after, d) <==> Flying(s, d) && d != lost
    ensures AccountAt(after, d)
  {
    CountAdds(s.losses, lost, d);
  }

  lemma LossKeepsAccount(s: State, k: nat)
    requires Accounted(s)
    ensures Accounted(Step(s, LoseFlight(k)))
  {
    if k in s.flights {
      var after := Step(s, LoseFlight(k));
      FlightGone(s, after, k);
      assert Flying(s, s.flights[k].id);
      forall d: nat
        ensures AccountAt(after, d)
      {
        LossAt(s, after, s.flights[k].id, d);
      }
    }
  }

  lemma ExecuteKeepsAccount(s: State, id: nat)
    requires Accounted(s)
    ensures Accounted(ExecuteStep(s, id))
  {
    if id in s.held {
      var after := ExecuteStep(s, id);
      assert AccountAt(s, id);
      if after.starts == s.starts {
        QuietKeepsAccount(s, after);
      } else {
        StartKeepsAccount(s, after, id, s.held[id], false, s.rows[id].proposed);
      }
    }
  }

  lemma ApproveKeepsAccount(s: State, id: nat, mine: bool, overrides: Payload, director: Director)
    requires Accounted(s) && !InHand(s, id)
    ensures Accounted(ApproveStep(s, id, mine, overrides, director))
  {
    var after := ApproveStep(s, id, mine, overrides, director);
    if after.starts == s.starts {
      QuietKeepsAccount(s, after);
    } else {
      assert s.held - {id} == s.held;
      StartKeepsAccount(s, after, id, director, true, Merged(s.rows[id].kind, s.rows[id].payload, overrides));
    }
  }

  lemma NewRowKeepsAccount(s: State, row: Row, held: map<nat, Director>)
    requires Accounted(s)
    requires || (row.outcome == Pending && held.Keys == s.held.Keys + {|s.rows|})
             || (row.outcome == Skipped && held == s.held)
    ensures Accounted(s.(rows := s.rows + [row], held := held))
  {
    assert AccountAt(s, |s.rows|);
    QuietKeepsAccount(s, s.(rows := s.rows + [row], held := held));
  }

  lemma RecordOneKeepsAccount(s: State, p: Proposal, cost: real, director: Director)
    requires Accounted(s)
    ensures Accounted(RecordOne(s, p, cost, director))
  {
    var after := RecordOne(s, p, cost, director);
    assert after == s.(rows := s.rows + [after.rows[|s.rows|]], held := after.held);
    NewRowKeepsAccount(s, after.rows[|s.rows|], after.held);
  }

  lemma {:induction false} RecordKeepsAccount(s: State, ps: seq<Proposal>, costs: seq<real>, director: Director, n: nat)
    requires Accounted(s) && n <= |ps| == |costs|
    ensures Accounted(RecordAll(s, ps, costs, director, n))
  {
    if n > 0 {
      RecordKeepsAccount(s, ps, costs, director, n - 1);
      RecordOneKeepsAccount(RecordAll(s, ps, costs, director, n - 1), ps[n - 1], costs[n - 1], director);
    }
  }

  lemma StepKeepsAccount(s: State, e: Event)
    requires Accounted(s) && Considerate(s, e)
    ensures Accounted(Step(s, e))
  {
    match e {
      case RecordTick(ps, cost, director) => RecordKeepsAccount(s, ps, Slices(|ps|, cost), director, |ps|);
      case ExecuteHeld(id) => ExecuteKeepsAccount(s, id);
      case Approve(id, mine, overrides, director) => if mine { ApproveKeepsAccount(s, id, mine, overrides, director); }
      case Attempt(k, result) => AttemptKeepsAccount(s, k, result);
      case LoseFlight(k) => LossKeepsAccount(s, k);
      case _ => QuietKeepsAccount(s, Step(s, e));
    }
  }

  lemma {:induction false} RunKeepsAccount(s: State, es: seq<Event>)
    requires Accounted(s) && Orderly(s, es)
    ensures Accounted(Run(s, es))
    decreases |es|
  {
    if es != [] {
      StepKeepsAccount(s, es[0]);
      RunKeepsAccount(Step(s, es[0]), es[1..]);
    }
  }

  // ---------------------------------------------------------------- theorems

  // In every orderly run a decision's side effect is started at most once, and once more for
  // every crash that cut a run off; it succeeds at most once, and has succeeded exactly when
  // the decision reads executed.
  lemma SingleRunTheorem(es: seq<Event>, id: nat)
    requires Orderly(EMPTY, es)
    ensures var s := Run(EMPTY, es);
            && Count(s.starts, id) <= Count(s.losses, id) + 1
            && Successes(s.tries, id) <= 1
            && (Successes(s.tries, id) == 1 <==> id < |s.rows| && s.rows[id].outcome == Executed)
  {
    RunKeepsAccount(EMPTY, es);
    assert AccountAt(Run(EMPTY, es), id);
  }

  lemma {:induction false} HeldAreNew(s: State, ps: seq<Proposal>, costs: seq<real>, director: Director, n: nat)
    requires n <= |ps| == |costs|
    ensures |RecordAll(s, ps, costs, director, n).rows| == |s.rows| + n
    ensures var held := RecordAll(s, ps, costs, director, n).held;
            forall id :: id in held ==> (id in s.held && held[id] == s.held[id]) || |s.rows| <= id < |s.rows| + n
  {
    if n > 0 { HeldAreNew(s, ps, costs, director, n - 1); }
  }
}
