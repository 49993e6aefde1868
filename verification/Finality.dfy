/**
 What can still happen to a decision (src/director/executor.ts:68-112, 309-317, 493-623,
 src/director/tick.ts:285-310): when its outcome is final, when a rejection is, and when an
 approval leaves its side effect to be run once.  Nothing in the code guards a decision that a
 tick or an approval has in hand; these are the exact conditions under which that matters.
 */
module Finality {
  import opened Wrappers
  import opened Counting
  import opened DecisionPolicy
  import opened DecisionKeys
  import opened DecisionLedger
  import opened Retries
  import opened SingleRun

  // ------------------------------------------------------------- final outcomes

  ghost predicate OutcomeStays(s: State, es: seq<Event>, id: nat)
    requires id < |s.rows|
  {
    id < |Run(s, es).rows| && Run(s, es).rows[id].outcome == s.rows[id].outcome
  }

  // Not pending; of the hands that have the decision, a flight can only fail it again, and a
  // tick can only settle it to what it is.
  ghost predicate Final(s: State, id: nat)
    requires id < |s.rows|
  {
    var r := s.rows[id];
    && r.outcome != Pending
    && (Flying(s, id) ==> r.outcome == Failed && r.kind == AmendCharter)
    && (id in s.held ==> SettledTo(r.kind, s.held[id]) == Some(r.outcome))
  }

  lemma FlightsFrom(s: State, after: State, id: nat)
    requires forall k :: k in after.flights ==>
                           (k in s.flights && after.flights[k].id == s.flights[k].id) || after.flights[k].id != id
    ensures Flying(after, id) ==> Flying(s, id)
  {
  }

  lemma RecordKeepsFinal(s: State, ps: seq<Proposal>, costs: seq<real>, director: Director, id: nat)
    requires |costs| == |ps| && id < |s.rows|
    ensures var after := RecordAll(s, ps, costs, director, |ps|);
            && id < |after.rows| && after.rows[id] == s.rows[id] && after.flights == s.flights
            && (id in after.held ==> id in s.held && after.held[id] == s.held[id])
  {
    RecordingKeepsRuns(s, ps, costs, director, |ps|);
    HeldAreNew(s, ps, costs, director, |ps|);
    var after := RecordAll(s, ps, costs, director, |ps|);
    assert after.rows[id] == after.rows[..|s.rows|][id];
  }

  lemma ExecuteKeepsFinal(s: State, a: nat, id: nat)
    requires id < |s.rows| && Final(s, id)
    ensures |ExecuteStep(s, a).rows| == |s.rows| && ExecuteStep(s, a).rows[id] == s.rows[id]
            && Final(ExecuteStep(s, a), id)
  {
    FlightsFrom(s, ExecuteStep(s, a), id);
  }

  lemma ApproveKeepsFinal(s: State, a: nat, mine: bool, overrides: Payload, director: Director, id: nat)
    requires id < |s.rows| && Final(s, id)
    ensures var after := ApproveStep(s, a, mine, overrides, director);
            |after.rows| == |s.rows| && after.rows[id] == s.rows[id] && Final(after, id)
  {
    FlightsFrom(s, ApproveStep(s, a, mine, overrides, director), id);
  }

  lemma AttemptKeepsFinal(s: State, k: nat, result: TryResult, id: nat)
    requires id < |s.rows| && Final(s, id)
    ensures var after := AttemptStep(s, k, result);
            |after.rows| == |s.rows| && after.rows[id] == s.rows[id] && Final(after, id)
  {
    if k in s.flights && s.flights[k].id == id { assert Flying(s, id); }
    FlightsFrom(s, AttemptStep(s, k, result), id);
  }

  lemma StepKeepsFinal(s: State, e: Event, id: nat)
    requires id < |s.rows| && Final(s, id)
    ensures var after := Step(s, e);
            id < |after.rows| && after.rows[id].outcome == s.rows[id].outcome && Final(after, id)
  {
    match e {
      case RecordTick(ps, cost, director) =>
        RecordKeepsFinal(s, ps, Slices(|ps|, cost), director, id);
        FlightsFrom(s, Step(s, e), id);
      case ExecuteHeld(a) => ExecuteKeepsFinal(s, a, id);
      case Approve(a, mine, overrides, director) => ApproveKeepsFinal(s, a, mine, overrides, director, id);
      case Attempt(k, result) => AttemptKeepsFinal(s, k, result, id);
      case _ => FlightsFrom(s, Step(s, e), id);
    }
  }

  lemma {:induction false} RunKeepsFinal(s: State, es: seq<Event>, id: nat)
    requires id < |s.rows| && Final(s, id)
    ensures OutcomeStays(s, es, id)
    decreases |es|
  {
    if es != [] {
      StepKeepsFinal(s, es[0], id);
      RunKeepsFinal(Step(s, es[0]), es[1..], id);
    }
  }

  // The sweep expires what is pending, once it is old enough.
  lemma PendingExpires(s: State, id: nat) returns (es: seq<Event>)
    requires id < |s.rows| && s.rows[id].outcome == Pending
    ensures Orderly(s, es) && !OutcomeStays(s, es, id)
  {
    var wait := Pass(Max(0, s.rows[id].ts + WEEK - s.clock + 1));
    es := [wait] + [Expire];
    OneStep(s, wait);
    RunOneMore(s, [wait], Expire);
  }

  // What is in flight can fail, and what has failed can succeed if it is no amend_charter.
  lemma FlightSettles(s: State, k: nat) returns (es: seq<Event>)
    requires k in s.flights && s.flights[k].id < |s.rows|
    requires var r := s.rows[s.flights[k].id]; !(r.outcome == Failed && r.kind == AmendCharter)
    ensures Orderly(s, es) && !OutcomeStays(s, es, s.flights[k].id)
  {
    var e := Attempt(k, if s.rows[s.flights[k].id].outcome == Failed then Succeeds else Throws(0, false));
    es := [e];
    OneStep(s, e);
  }

  // Executing what is held settles it to something else, or starts a run that does.
  lemma HeldSettles(s: State, id: nat) returns (es: seq<Event>)
    requires id < |s.rows| && id in s.held && SettledTo(s.rows[id].kind, s.held[id]) != Some(s.rows[id].outcome)
    ensures Orderly(s, es) && !OutcomeStays(s, es, id)
  {
    var next := Step(s, ExecuteHeld(id));
    OneStep(s, ExecuteHeld(id));
    if SettledTo(s.rows[id].kind, s.held[id]).Some? {
      es := [ExecuteHeld(id)];
    } else {
      assert next.flights[|s.starts|].id == id && next.rows == s.rows;
      var rest := FlightSettles(next, |s.starts|);
      es := [ExecuteHeld(id)] + rest;
      RunSplits(s, [ExecuteHeld(id)], rest);
    }
  }

  lemma Unsettled(s: State, id: nat) returns (es: seq<Event>)
    requires id < |s.rows| && !Final(s, id)
    ensures Orderly(s, es) && !OutcomeStays(s, es, id)
  {
    if s.rows[id].outcome == Pending {
      es := PendingExpires(s, id);
    } else if Flying(s, id) && !(s.rows[id].outcome == Failed && s.rows[id].kind == AmendCharter) {
      var k :| k in s.flights && s.flights[k].id == id;
      es := FlightSettles(s, k);
    } else {
      es := HeldSettles(s, id);
    }
  }

  // In any state at all: an outcome outlives every run, and every orderly run, exactly when it
  // is final.
  lemma FinalIff(s: State, id: nat)
    requires id < |s.rows|
    ensures (forall es: seq<Event> :: OutcomeStays(s, es, id)) <==> Final(s, id)
    ensures (forall es: seq<Event> :: Orderly(s, es) ==> OutcomeStays(s, es, id)) <==> Final(s, id)
  {
    if Final(s, id) {
      forall es: seq<Event>
        ensures OutcomeStays(s, es, id)
      {
        RunKeepsFinal(s, es, id);
      }
    } else {
      var es := Unsettled(s, id);
    }
  }

  // Where the accounts of the orderly runs hold, that is: neither pending nor in hand.
  lemma FinalInOrder(s: State, id: nat)
    requires Accounted(s) && id < |s.rows|
    ensures Final(s, id) <==> s.rows[id].outcome != Pending && !InHand(s, id)
  {
    assert AccountAt(s, id);
  }

  // A rejection stands, in every continuation, exactly when nobody had the decision in hand.
  lemma RejectionIff(s: State, id: nat)
    requires id < |s.rows| && s.rows[id].outcome == Pending
    ensures var rejected := Step(s, Reject(id, true));
            rejected.rows[id].outcome == Rejected
            && ((forall es: seq<Event> :: OutcomeStays(rejected, es, id)) <==> !InHand(s, id))
            && ((forall es: seq<Event> :: Orderly(rejected, es) ==> OutcomeStays(rejected, es, id)) <==> !InHand(s, id))
  {
    var rejected := Step(s, Reject(id, true));
    assert rejected.flights == s.flights && rejected.held == s.held;
    assert Flying(rejected, id) <==> Flying(s, id);
    FinalIff(rejected, id);
  }

  // ------------------------------------------------------------ one run at most

  // A tick that holds the decision will neither run it nor make it pending.
  predicate Harmless(kind: Kind, director: Director) {
    SettledTo(kind, director) == Some(DryRun) || SettledTo(kind, director) == Some(Skipped)
  }

  ghost predicate StartsBounded(s: State, id: nat) {
    Count(s.starts, id) <= Count(s.losses, id) + 1
  }

  // One run at most is in progress or has ended, and nothing but an approval starts another.
  ghost predicate Once(s: State, id: nat) {
    && id < |s.rows| && OneFlightOf(s, id)
    && StartsBounded(s, id)
    && (!Flying(s, id) && s.rows[id].outcome == Pending ==> Count(s.starts, id) <= Count(s.losses, id))
    && (id in s.held ==> Harmless(s.rows[id].kind, s.held[id]))
  }

  ghost predicate OneFlightOf(s: State, id: nat) {
    && (forall k :: k in s.flights ==> k < |s.starts|)
    && forall j, k :: j in s.flights && k in s.flights && s.flights[j].id == s.flights[k].id == id ==> j == k
  }

  lemma ApproveKeepsOnce(s: State, a: nat, mine: bool, overrides: Payload, director: Director, id: nat)
    requires Once(s, id) && Considerate(s, Approve(a, mine, overrides, director))
    ensures Once(ApproveStep(s, a, mine, overrides, director), id)
  {
    var after := ApproveStep(s, a, mine, overrides, director);
    if after.starts != s.starts {
      CountAdds(s.starts, a, id);
      assert after.flights[|s.starts|].id == a;
      assert a == id ==> !Flying(s, id);
      assert a != id && Flying(s, id) ==> Flying(after, id) by {
        if a != id && Flying(s, id) {
          var k :| k in s.flights && s.flights[k].id == id;
          assert after.flights[k] == s.flights[k];
        }
      }
    }
  }

  lemma ExecuteKeepsOnce(s: State, a: nat, id: nat)
    requires Once(s, id)
    ensures Once(ExecuteStep(s, a), id)
  {
    var after := ExecuteStep(s, a);
    if after.starts != s.starts {
      CountAdds(s.starts, a, id);
      if Flying(s, id) {
        var k :| k in s.flights && s.flights[k].id == id;
        assert after.flights[k] == s.flights[k];
      }
    }
  }

  lemma AttemptKeepsOnce(s: State, k: nat, result: TryResult, id: nat)
    requires Once(s, id)
    ensures Once(AttemptStep(s, k, result), id)
  {
    var after := AttemptStep(s, k, result);
    if Flying(s, id) && !(k in s.flights && s.flights[k].id == id) {
      var j :| j in s.flights && s.flights[j].id == id;
      assert j in after.flights && after.flights[j] == s.flights[j];
    }
    if k in s.flights && s.flights[k].id == id && k in after.flights { assert after.flights[k].id == id; }
  }

  lemma FewerFlights(s: State, after: State, k: nat, id: nat)
    requires OneFlightOf(s, id) && k in s.flights && after.flights == s.flights - {k} && after.starts == s.starts
    ensures OneFlightOf(after, id)
    ensures Flying(after, id) <==> Flying(s, id) && s.flights[k].id != id
  {
    if Flying(s, id) && s.flights[k].id != id {
      var j :| j in s.flights && s.flights[j].id == id;
      assert j in after.flights;
    }
  }

  lemma LossKeepsOnce(s: State, k: nat, id: nat)
    requires Once(s, id)
    ensures Once(Step(s, LoseFlight(k)), id)
  {
    if k in s.flights {
      FewerFlights(s, Step(s, LoseFlight(k)), k, id);
      CountAdds(s.losses, s.flights[k].id, id);
    }
  }

  lemma StepKeepsOnce(s: State, e: Event, id: nat)
    requires Once(s, id) && Considerate(s, e)
    ensures Once(Step(s, e), id)
  {
    match e {
      case RecordTick(ps, cost, director) =>
        RecordKeepsFinal(s, ps, Slices(|ps|, cost), director, id);
        RecordingKeepsRuns(s, ps, Slices(|ps|, cost), director, |ps|);
      case ExecuteHeld(a) => ExecuteKeepsOnce(s, a, id);
      case Approve(a, mine, overrides, director) => ApproveKeepsOnce(s, a, mine, overrides, director, id);
      case Attempt(k, result) => AttemptKeepsOnce(s, k, result, id);
      case LoseFlight(k) => LossKeepsOnce(s, k, id);
      case _ => assert Step(s, e).flights == s.flights;
    }
  }

  lemma {:induction false} RunKeepsOnce(s: State, es: seq<Event>, id: nat)
    requires Once(s, id) && Orderly(s, es)
    ensures Once(Run(s, es), id)
    decreases |es|
  {
    if es != [] {
      StepKeepsOnce(s, es[0], id);
      RunKeepsOnce(Step(s, es[0]), es[1..], id);
    }
  }

  ghost predicate StaysBounded(s: State, es: seq<Event>, id: nat) {
    Orderly(s, es) ==> StartsBounded(Run(s, es), id)
  }

  // A permitted approval starts a run, and the decision stays pending.
  lemma ApprovalStarts(s: State, id: nat, overrides: Payload, director: Director)
    requires id < |s.rows| && s.rows[id].outcome == Pending && Allowed(s.rows[id].kind, director.authority)
    ensures var after := Step(s, Approve(id, true, overrides, director));
            && after.starts == s.starts + [id] && after.held == s.held && after.losses == s.losses
            && after.flights.Keys == s.flights.Keys + {|s.starts|} && after.flights[|s.starts|].id == id
            && (forall k :: k in s.flights && k != |s.starts| ==> after.flights[k] == s.flights[k])
            && after.rows == s.rows[id := s.rows[id].(payload := after.rows[id].payload)]
  {
  }

  // A run that fails for good leaves the rest as it was.
  lemma FailureEnds(s: State, k: nat)
    requires k in s.flights && s.flights[k].id < |s.rows|
    ensures var after := Step(s, Attempt(k, Throws(0, false)));
            && after.flights == s.flights - {k} && after.starts == s.starts && after.held == s.held
            && after.losses == s.losses
            && after.rows == s.rows[s.flights[k].id := s.rows[s.flights[k].id].(outcome := Failed)]
  {
  }

  // The tick that holds an approved decision runs it as well, or makes it pending again for
  // the next approval.
  lemma HeldRunsAgain(s: State, id: nat, overrides: Payload, director: Director) returns (es: seq<Event>)
    requires Accounted(s)
    requires id < |s.rows| && s.rows[id].outcome == Pending && Allowed(s.rows[id].kind, director.authority)
    requires id in s.held && !Harmless(s.rows[id].kind, s.held[id])
    ensures !StaysBounded(Step(s, Approve(id, true, overrides, director)), es, id)
  {
    assert AccountAt(s, id);
    var k := |s.starts|;
    var approved := Step(s, Approve(id, true, overrides, director));
    CountAdds(s.starts, id, id);
    CountAdds(approved.starts, id, id);
    ApprovalStarts(s, id, overrides, director);
    if SettledTo(s.rows[id].kind, s.held[id]).None? {
      es := [ExecuteHeld(id)];
      OneStep(approved, ExecuteHeld(id));
    } else {
      var fail, again := Attempt(k, Throws(0, false)), Approve(id, true, map[], director);
      es := [fail] + [ExecuteHeld(id)] + [again];
      OneStep(approved, fail);
      RunOneMore(approved, [fail], ExecuteHeld(id));
      RunOneMore(approved, [fail] + [ExecuteHeld(id)], again);
      FailureEnds(approved, k);
      var failed := Step(approved, fail);
      assert failed.flights.Keys == s.flights.Keys;
      HeldGoesBack(failed, id);
      ApprovalStarts(Step(failed, ExecuteHeld(id)), id, map[], director);
    }
  }

  // A held decision that needs an approval is pending again, whatever has become of it.
  lemma HeldGoesBack(s: State, id: nat)
    requires id in s.held && id < |s.rows| && SettledTo(s.rows[id].kind, s.held[id]) == Some(Pending)
    ensures var after := Step(s, ExecuteHeld(id));
            && after.flights == s.flights && after.starts == s.starts && after.losses == s.losses
            && after.held == s.held - {id} && after.rows == s.rows[id := s.rows[id].(outcome := Pending)]
  {
  }

  // After a permitted approval the side effect is started at most once, and once more per
  // crash, in every orderly continuation, exactly when no run of it was in progress and no
  // tick holds the decision, other than to leave it alone.
  lemma SecondRunIff(s: State, id: nat, overrides: Payload, director: Director)
    requires Accounted(s)
    requires id < |s.rows| && s.rows[id].outcome == Pending && Allowed(s.rows[id].kind, director.authority)
    ensures (forall es: seq<Event> :: StaysBounded(Step(s, Approve(id, true, overrides, director)), es, id))
            <==> !Flying(s, id) && (id in s.held ==> Harmless(s.rows[id].kind, s.held[id]))
  {
    assert AccountAt(s, id);
    var approved := Step(s, Approve(id, true, overrides, director));
    CountAdds(s.starts, id, id);
    if Flying(s, id) {
      assert Orderly(approved, []) && Run(approved, []) == approved;
      assert !StaysBounded(approved, [], id);
    } else if id in s.held && !Harmless(s.rows[id].kind, s.held[id]) {
      var es := HeldRunsAgain(s, id, overrides, director);
    } else {
      assert approved.flights[|s.starts|].id == id;
      assert Once(approved, id);
      forall es: seq<Event>
        ensures StaysBounded(approved, es, id)
      {
        if Orderly(approved, es) { RunKeepsOnce(approved, es, id); }
      }
    }
  }

  // -------------------------------------------------- runs from an empty ledger

  // A tick has recorded one decision and not executed it yet.
  lemma HeldFromEmpty(p: Proposal, cost: real, director: Director)
    ensures var e := RecordTick([p], cost, director);
            var s := Run(EMPTY, [e]);
            && Orderly(EMPTY, [e]) && Accounted(s)
            && |s.rows| == 1 && s.rows[0].outcome == Pending
            && s.rows[0].kind == p.kind && s.rows[0].proposed == p.payload
            && s.rows[0].key == Key(p.kind, p.payload) && s.rows[0].ts == s.clock
            && s.held == map[0 := director] && s.flights == map[] && s.starts == []
  {
    var e := RecordTick([p], cost, director);
    OneStep(EMPTY, e);
    var costs := Slices(1, cost);
    assert RecordAll(EMPTY, [p], costs, director, 0) == EMPTY;
    assert Step(EMPTY, e) == RecordOne(EMPTY, p, costs[0], director);
    RunKeepsAccount(EMPTY, [e]);
  }

  // It has started to execute it: the side effect is in flight, the decision still pending.
  lemma FlyingFromEmpty(p: Proposal, cost: real, director: Director)
    requires SettledTo(p.kind, director) == None
    ensures var es := [RecordTick([p], cost, director)] + [ExecuteHeld(0)];
            var s := Run(EMPTY, es);
            && Orderly(EMPTY, es) && Accounted(s)
            && |s.rows| == 1 && s.rows[0].outcome == Pending
            && s.rows[0].kind == p.kind && s.rows[0].proposed == p.payload
            && s.rows[0].key == Key(p.kind, p.payload) && s.rows[0].ts == s.clock
            && s.held == map[] && 0 in s.flights && s.flights[0].id == 0 && Flying(s, 0)
  {
    var e := RecordTick([p], cost, director);
    HeldFromEmpty(p, cost, director);
    RunOneMore(EMPTY, [e], ExecuteHeld(0));
    RunKeepsAccount(EMPTY, [e] + [ExecuteHeld(0)]);
    assert Run(EMPTY, [e]).held - {0} == map[];
  }

  // So one tick is enough to reach a state in which an approval makes an issue twice ...
  lemma ApprovedWhileHeld(p: Proposal, cost: real, director: Director)
    requires p.kind == CreateIssue && SettledTo(CreateIssue, director) == None
    ensures var s := Run(EMPTY, [RecordTick([p], cost, director)]);
            var both := Step(Step(s, Approve(0, true, map[], director)), ExecuteHeld(0));
            var after := Step(Step(both, Attempt(0, Succeeds)), Attempt(1, Succeeds));
            && |after.effects| == 2
            && forall i :: 0 <= i < 2 ==> after.effects[i].id == 0 && after.effects[i].call == IssueCreated
  {
    HeldFromEmpty(p, cost, director);
    var s := Run(EMPTY, [RecordTick([p], cost, director)]);
    RecordingKeepsRuns(EMPTY, [p], Slices(1, cost), director, 1);
    OneStep(EMPTY, RecordTick([p], cost, director));
    assert s.effects == [];
    ApprovalStarts(s, 0, map[], director);
    BothSucceed(Step(Step(s, Approve(0, true, map[], director)), ExecuteHeld(0)));
  }

  lemma BothSucceed(s: State)
    requires 0 in s.flights && 1 in s.flights && s.flights[0].id == s.flights[1].id == 0 && s.effects == []
    requires |s.rows| > 0 && s.rows[0].kind == CreateIssue
    ensures var after := Step(Step(s, Attempt(0, Succeeds)), Attempt(1, Succeeds));
            && |after.effects| == 2
            && forall i :: 0 <= i < 2 ==> after.effects[i].id == 0 && after.effects[i].call == IssueCreated
  {
    var once := Step(s, Attempt(0, Succeeds));
    assert once.effects == Effects(s.flights[0], [IssueCreated]);
    assert 1 in once.flights && once.flights[1] == s.flights[1] && once.rows[0].kind == CreateIssue;
  }

  // ... and two steps to one in which the success of a run overwrites a rejection.
  lemma RejectedWhileFlying(p: Proposal, cost: real, director: Director)
    requires SettledTo(p.kind, director) == None
    ensures var s := Run(EMPTY, [RecordTick([p], cost, director)] + [ExecuteHeld(0)]);
            var rejected := Step(s, Reject(0, true));
            && |rejected.rows| == 1 && rejected.rows[0].outcome == Rejected
            && Step(rejected, Attempt(0, Succeeds)).rows[0].outcome == Executed
  {
    FlyingFromEmpty(p, cost, director);
  }
}
