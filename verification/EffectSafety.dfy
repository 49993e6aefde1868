/**
 Every call the Director makes to the forge was allowed by the authority it read, in every
 run: any interleaving, any configuration changes, crashes, approvals and edits
 (src/director/executor.ts:68-202, 403-419, 493-623).
 */
module EffectSafety {
  import opened Wrappers
  import opened DecisionPolicy
  import opened DecisionLedger

  // Allowed, and approved by a human unless the mode lets the kind run by itself.
  predicate Authorised(kind: Kind, director: Director, approved: bool) {
    && Allowed(kind, director.authority)
    && (approved || (director.mode != DryRunMode && !NeedsApproval(kind, director.mode)))
  }

  ghost predicate RowSafe(r: Row) {
    (r.kind == AmendCharter ==> r.outcome != Executed) && SameTarget(r.kind, r.proposed, r.payload)
  }

  ghost predicate ActSafe(rows: seq<Row>, id: nat, director: Director, approved: bool, payload: Payload) {
    && id < |rows|
    && Authorised(rows[id].kind, director, approved)
    && SameTarget(rows[id].kind, rows[id].proposed, payload)
  }

  ghost predicate FlightSafe(rows: seq<Row>, f: Flight) {
    ActSafe(rows, f.id, f.director, f.approved, f.payload)
  }

  ghost predicate EffectSafe(rows: seq<Row>, e: Effect) {
    ActSafe(rows, e.id, e.director, e.approved, e.payload) && e.call in CallsOf(rows[e.id].kind)
  }

  ghost predicate Safe(s: State) {
    && (forall i :: 0 <= i < |s.rows| ==> RowSafe(s.rows[i]))
    && (forall id :: id in s.held ==> id < |s.rows|)
    && (forall k :: k in s.flights ==> FlightSafe(s.rows, s.flights[k]))
    && (forall i :: 0 <= i < |s.effects| ==> EffectSafe(s.rows, s.effects[i]))
  }

  // What is recorded of a decision stays: rows only grow, and keep everything but their
  // outcome and payload.
  ghost predicate KeepsRecords(rows: seq<Row>, after: seq<Row>) {
    && |rows| <= |after|
    && forall i :: 0 <= i < |rows| ==> after[i] == rows[i].(outcome := after[i].outcome, payload := after[i].payload)
  }

  // Old acts stay safe when records are kept; the new ones have to be.
  lemma Carry(s: State, after: State)
    requires Safe(s) && KeepsRecords(s.rows, after.rows)
    requires forall i :: 0 <= i < |after.rows| ==> RowSafe(after.rows[i])
    requires forall id :: id in after.held ==> id < |after.rows|
    requires forall k :: k in after.flights ==>
                           (k in s.flights && after.flights[k] == s.flights[k].(tries := after.flights[k].tries))
                           || FlightSafe(after.rows, after.flights[k])
    requires |s.effects| <= |after.effects| && after.effects[..|s.effects|] == s.effects
    requires forall i :: |s.effects| <= i < |after.effects| ==> EffectSafe(after.rows, after.effects[i])
    ensures Safe(after)
  {
    forall k | k in after.flights
      ensures FlightSafe(after.rows, after.flights[k])
    {
      if k in s.flights && after.flights[k] == s.flights[k].(tries := after.flights[k].tries) {
        assert FlightSafe(s.rows, s.flights[k]);
      }
    }
    forall i | 0 <= i < |after.effects|
      ensures EffectSafe(after.rows, after.effects[i])
    {
      if i < |s.effects| {
        assert after.effects[i] == after.effects[..|s.effects|][i] == s.effects[i];
        assert EffectSafe(s.rows, s.effects[i]);
      }
    }
  }

  lemma {:induction false} RecordingIsSafe(s: State, ps: seq<Proposal>, costs: seq<real>, director: Director, n: nat)
    requires Safe(s) && n <= |ps| == |costs|
    ensures Safe(RecordAll(s, ps, costs, director, n))
            && KeepsRecords(s.rows, RecordAll(s, ps, costs, director, n).rows)
  {
    if n > 0 {
      var before := RecordAll(s, ps, costs, director, n - 1);
      RecordingIsSafe(s, ps, costs, director, n - 1);
      Carry(before, RecordAll(s, ps, costs, director, n));
    }
  }

  // Setting an outcome, other than executed for an amend_charter.
  lemma SettlingIsSafe(s: State, id: nat, outcome: Outcome)
    requires Safe(s) && id in s.held && outcome != Executed
    ensures var after := SetOutcome(s.(held := s.held - {id}), id, outcome);
            Safe(after) && KeepsRecords(s.rows, after.rows)
  {
    Carry(s, SetOutcome(s.(held := s.held - {id}), id, outcome));
  }

  lemma StartingIsSafe(s: State, rows: seq<Row>, held: map<nat, Director>, id: nat, director: Director,
      approved: bool, payload: Payload)
    requires Safe(s) && KeepsRecords(s.rows, rows) && ActSafe(rows, id, director, approved, payload)
    requires forall i :: 0 <= i < |rows| ==> RowSafe(rows[i])
    requires held.Keys <= s.held.Keys
    ensures Safe(StartRun(s.(rows := rows, held := held), id, director, approved, payload))
  {
    Carry(s, StartRun(s.(rows := rows, held := held), id, director, approved, payload));
  }

  lemma ExecutingIsSafe(s: State, id: nat)
    requires Safe(s)
    ensures Safe(ExecuteStep(s, id)) && KeepsRecords(s.rows, ExecuteStep(s, id).rows)
  {
    if id in s.held {
      var director, kind := s.held[id], s.rows[id].kind;
      match SettledTo(kind, director) {
        case Some(outcome) => SettlingIsSafe(s, id, outcome);
        case None => StartingIsSafe(s, s.rows, s.held - {id}, id, director, false, s.rows[id].proposed);
      }
    }
  }

  lemma EditedRowIsSafe(row: Row, overrides: Payload)
    requires RowSafe(row)
    ensures SameTarget(row.kind, row.proposed, Merged(row.kind, row.payload, overrides))
  {
    EditsKeepTarget(row.kind, row.payload, overrides);
  }

  lemma ApprovingIsSafe(s: State, id: nat, mine: bool, overrides: Payload, director: Director)
    requires Safe(s)
    ensures Safe(ApproveStep(s, id, mine, overrides, director))
    ensures KeepsRecords(s.rows, ApproveStep(s, id, mine, overrides, director).rows)
  {
    if id < |s.rows| && s.rows[id].outcome == Pending && mine {
      var row := s.rows[id];
      assert RowSafe(row);
      EditedRowIsSafe(row, overrides);
      var payload := Merged(row.kind, row.payload, overrides);
      var rows := s.rows[id := row.(payload := payload)];
      if Allowed(row.kind, director.authority) {
        StartingIsSafe(s, rows, s.held, id, director, true, payload);
      } else {
        Carry(s, SetOutcome(s.(rows := rows), id, Skipped));
      }
    }
  }

  lemma EffectsAreSafe(rows: seq<Row>, f: Flight, calls: seq<Call>)
    requires FlightSafe(rows, f) && forall c :: c in calls ==> c in CallsOf(rows[f.id].kind)
    ensures forall e :: e in Effects(f, calls) ==> EffectSafe(rows, e)
  {
    forall e | e in Effects(f, calls)
      ensures EffectSafe(rows, e)
    {
      var i :| 0 <= i < |calls| && Effects(f, calls)[i] == e;
      assert calls[i] in calls;
    }
  }

  // What an attempt changes: calls of its own kind are logged, and its decision's outcome may
  // be set, to executed for kinds other than amend_charter only.
  lemma AttemptShape(s: State, k: nat, result: TryResult) returns (calls: seq<Call>)
    requires k in s.flights && s.flights[k].id < |s.rows|
    ensures var after, f := AttemptStep(s, k, result), s.flights[k];
            && after.effects == s.effects + Effects(f, calls) && after.held == s.held
            && (forall c :: c in calls ==> c in CallsOf(s.rows[f.id].kind))
            && |after.rows| == |s.rows|
            && (forall i :: 0 <= i < |s.rows| && i != f.id ==> after.rows[i] == s.rows[i])
            && after.rows[f.id] == s.rows[f.id].(outcome := after.rows[f.id].outcome)
            && (s.rows[f.id].kind == AmendCharter && s.rows[f.id].outcome != Executed
                ==> after.rows[f.id].outcome != Executed)
            && (forall j :: j in after.flights ==>
                              j in s.flights && after.flights[j] == s.flights[j].(tries := after.flights[j].tries))
  {
    var all := CallsOf(s.rows[s.flights[k].id].kind);
    calls := if s.rows[s.flights[k].id].kind == AmendCharter then []
             else if result.Succeeds? then all
             else all[..Min(result.issued, |all|)];
    assert s.effects + Effects(s.flights[k], []) == s.effects;
  }

  lemma AttemptingIsSafe(s: State, k: nat, result: TryResult)
    requires Safe(s)
    ensures Safe(AttemptStep(s, k, result)) && KeepsRecords(s.rows, AttemptStep(s, k, result).rows)
  {
    if k in s.flights {
      var after, f := AttemptStep(s, k, result), s.flights[k];
      assert FlightSafe(s.rows, f);
      var calls := AttemptShape(s, k, result);
      EffectsAreSafe(after.rows, f, calls);
      assert after.effects[..|s.effects|] == s.effects;
      assert forall i :: |s.effects| <= i < |after.effects| ==> after.effects[i] == Effects(f, calls)[i - |s.effects|];
      Carry(s, after);
    }
  }

  lemma StepIsSafe(s: State, e: Event)
    requires Safe(s)
    ensures Safe(Step(s, e)) && KeepsRecords(s.rows, Step(s, e).rows)
  {
    match e {
      case RecordTick(proposals, cost, director) => RecordingIsSafe(s, proposals, Slices(|proposals|, cost), director,
          |proposals|);
      case ExecuteHeld(id) => ExecutingIsSafe(s, id);
      case Approve(id, mine, overrides, director) => ApprovingIsSafe(s, id, mine, overrides, director);
      case Attempt(k, result) => AttemptingIsSafe(s, k, result);
      case _ => Carry(s, Step(s, e));
    }
  }

  lemma {:induction false} RunIsSafe(s: State, es: seq<Event>)
    requires Safe(s)
    ensures Safe(Run(s, es)) && KeepsRecords(s.rows, Run(s, es).rows)
    decreases |es|
  {
    if es != [] {
      StepIsSafe(s, es[0]);
      RunIsSafe(Step(s, es[0]), es[1..]);
    }
  }

  ghost predicate Proper(rows: seq<Row>, e: Effect) {
    && e.id < |rows| && e.call in CallsOf(rows[e.id].kind)
    && Permits(e.director.authority, e.call)
    && SameTarget(rows[e.id].kind, rows[e.id].proposed, e.payload)
    && (!e.approved ==> e.director.mode == SemiAuto || e.director.mode == FullAuto)
    && (!e.approved && e.call == PrMerged ==> e.director.mode == FullAuto)
    && rows[e.id].kind != AmendCharter
  }

  // In every run: each call made to the forge was permitted by the authority its execution
  // read, acts on the item that was proposed, and belongs to the decision's kind; without a
  // human it happens in semi_auto or full_auto only, and a merge in full_auto only.  An
  // amend_charter is never executed and never makes a call.
  lemma EffectsTheorem(es: seq<Event>)
    ensures var s := Run(EMPTY, es);
            && (forall e :: e in s.effects ==> Proper(s.rows, e))
            && (forall id :: 0 <= id < |s.rows| && s.rows[id].kind == AmendCharter ==> s.rows[id].outcome != Executed)
  {
    RunIsSafe(EMPTY, es);
    var s := Run(EMPTY, es);
    forall e | e in s.effects
      ensures Proper(s.rows, e)
    {
      assert EffectSafe(s.rows, e);
      var c :| 0 <= c < |CallsOf(s.rows[e.id].kind)| && CallsOf(s.rows[e.id].kind)[c] == e.call;
      AllowedCallsArePermitted(s.rows[e.id].kind, e.director.authority, c);
    }
    assert forall id :: 0 <= id < |s.rows| ==> RowSafe(s.rows[id]);
  }
}
