/**
 The seven-day window (src/director/dedup.ts:95-112, src/director/tick.ts:438-486,
 src/director/decisions.ts:87-179): in every orderly run, two living decisions with one key
 were recorded at least a week apart, through ticks with internal duplicates, approvals,
 edits, rejections, expiry and crashes.  What a human does to a decision that is in hand can
 break it, and the last lemmas say exactly when.
 */
module DedupWindow {
  import opened Wrappers
  import opened DecisionPolicy
  import opened DecisionKeys
  import opened DecisionLedger
  import opened Finality

  // The window: living decisions with one key are a week apart.
  ghost predicate Window(rows: seq<Row>) {
    forall i, j :: 0 <= i < j < |rows|
                   && rows[i].key.Some? && rows[i].key == rows[j].key && Living(rows[i]) && Living(rows[j])
                   ==> rows[j].ts - rows[i].ts >= WEEK
  }

  // Somebody has the decision in hand and may make it pending or executed.
  ghost predicate Revives(s: State, i: nat)
    requires i < |s.rows|
  {
    || (Flying(s, i) && s.rows[i].kind != AmendCharter)
    || (i in s.held && !Harmless(s.rows[i].kind, s.held[i]))
  }

  ghost predicate Potential(s: State, i: nat) {
    i < |s.rows| && (Living(s.rows[i]) || Revives(s, i))
  }

  // The gate would find the decision if it is living.
  predicate Recent(s: State, i: nat)
    requires i < |s.rows|
  {
    s.rows[i].key.Some? && s.rows[i].ts + WEEK > s.clock
  }

  ghost predicate Apart(s: State, i: nat, j: nat)
    requires i < |s.rows| && j < |s.rows|
  {
    s.rows[i].key.Some? && s.rows[i].key == s.rows[j].key && Potential(s, i) && Potential(s, j)
    ==> s.rows[i].ts + WEEK <= s.rows[j].ts
  }

  ghost predicate OneFlight(s: State, i: nat) {
    forall j, k :: j in s.flights && k in s.flights && s.flights[j].id == s.flights[k].id == i ==> j == k
  }

  // At most one hand can revive the decision, and no other can take it off the gate's list.
  ghost predicate OneHand(s: State, i: nat)
    requires i < |s.rows|
  {
    && (Flying(s, i) && s.rows[i].kind != AmendCharter ==> i !in s.held && OneFlight(s, i))
    && (i in s.held && !Harmless(s.rows[i].kind, s.held[i]) ==> !Flying(s, i))
  }

  // A recent decision that can come to life is on the gate's list.
  ghost predicate SafeAt(s: State, i: nat)
    requires i < |s.rows|
  {
    && s.rows[i].ts <= s.clock
    && s.rows[i].key == Key(s.rows[i].kind, s.rows[i].proposed)
    && (Recent(s, i) ==> OneHand(s, i) && (Revives(s, i) ==> Living(s.rows[i])))
  }

  ghost predicate HandsKnown(s: State) {
    && (forall id :: id in s.held ==> id < |s.rows|)
    && forall k :: k in s.flights ==> k < |s.starts| && s.flights[k].id < |s.rows|
  }

  ghost predicate Spaced(s: State) {
    && HandsKnown(s)
    && (forall i :: 0 <= i < |s.rows| ==> SafeAt(s, i))
    && forall i, j :: 0 <= i < j < |s.rows| ==> Apart(s, i, j)
  }

  // ------------------------------------------------------------- preservation

  // Steps that add no row: each old one stays safe and gains no life.
  ghost predicate NoGain(s: State, after: State, i: nat)
    requires i < |s.rows| == |after.rows|
  {
    && after.rows[i].ts == s.rows[i].ts && after.rows[i].key == s.rows[i].key
    && SafeAt(after, i) && (Potential(after, i) ==> Potential(s, i))
  }

  lemma NoGainKeepsSpaced(s: State, after: State)
    requires Spaced(s) && HandsKnown(after) && |after.rows| == |s.rows|
    requires forall i :: 0 <= i < |s.rows| ==> NoGain(s, after, i)
    ensures Spaced(after)
  {
    forall i | 0 <= i < |after.rows|
      ensures SafeAt(after, i)
    {
      assert NoGain(s, after, i);
    }
    forall i, j | 0 <= i < j < |after.rows|
      ensures Apart(after, i, j)
    {
      assert Apart(s, i, j) && NoGain(s, after, i) && NoGain(s, after, j);
    }
  }

  // A row that nothing touches, while the clock and its hands stay or go.
  lemma UntouchedGainsNothing(s: State, after: State, i: nat)
    requires i < |s.rows| == |after.rows| && SafeAt(s, i) && s.clock <= after.clock
    requires after.rows[i] == s.rows[i].(payload := after.rows[i].payload)
    requires forall k :: k in after.flights && after.flights[k].id == i ==> k in s.flights && s.flights[k].id == i
    requires i in after.held ==> i in s.held && after.held[i] == s.held[i]
    ensures NoGain(s, after, i)
  {
    assert Flying(after, i) ==> Flying(s, i);
  }

  lemma ExecuteGainsNothing(s: State, a: nat, i: nat)
    requires HandsKnown(s) && i < |s.rows| && SafeAt(s, i)
    ensures |ExecuteStep(s, a).rows| == |s.rows| && NoGain(s, ExecuteStep(s, a), i)
  {
    var after := ExecuteStep(s, a);
    if a != i || a !in s.held {
      UntouchedGainsNothing(s, after, i);
    } else {
      ExecutedGainsNothing(s, i);
    }
  }

  lemma ExecutedGainsNothing(s: State, i: nat)
    requires HandsKnown(s) && i < |s.rows| && SafeAt(s, i) && i in s.held
    ensures |ExecuteStep(s, i).rows| == |s.rows| && NoGain(s, ExecuteStep(s, i), i)
  {
    var after := ExecuteStep(s, i);
    if SettledTo(s.rows[i].kind, s.held[i]).Some? {
      assert after.flights == s.flights;
      assert Flying(after, i) <==> Flying(s, i);
    } else {
      assert forall k :: k in after.flights && after.flights[k].id == i ==> k == |s.starts| || Flying(s, i);
    }
  }

  lemma ApproveGainsNothing(s: State, a: nat, mine: bool, overrides: Payload, director: Director, i: nat)
    requires HandsKnown(s) && i < |s.rows| && SafeAt(s, i)
    requires Considerate(s, Approve(a, mine, overrides, director))
    ensures var after := ApproveStep(s, a, mine, overrides, director);
            |after.rows| == |s.rows| && NoGain(s, after, i)
  {
    var after := ApproveStep(s, a, mine, overrides, director);
    if a != i || after == s {
      UntouchedGainsNothing(s, after, i);
    } else {
      assert forall k :: k in after.flights && after.flights[k].id == i ==> k == |s.starts|;
    }
  }

  lemma AttemptGainsNothing(s: State, k: nat, result: TryResult, i: nat)
    requires HandsKnown(s) && i < |s.rows| && SafeAt(s, i)
    ensures var after := AttemptStep(s, k, result);
            |after.rows| == |s.rows| && NoGain(s, after, i)
  {
    var after := AttemptStep(s, k, result);
    if k !in s.flights || s.flights[k].id != i || k in after.flights {
      UntouchedGainsNothing(s, after, i);
    } else {
      assert Flying(s, i);
      assert Flying(after, i) ==> !OneFlight(s, i);
    }
  }

  lemma OthersGainNothing(s: State, e: Event, i: nat)
    requires HandsKnown(s) && i < |s.rows| && SafeAt(s, i) && Considerate(s, e)
    requires e.Reject? || e.Expire? || e.Pass? || e.LoseFlight? || e.LoseHeld?
    ensures |Step(s, e).rows| == |s.rows| && NoGain(s, Step(s, e), i)
  {
    var after := Step(s, e);
    if after.rows[i] == s.rows[i] {
      UntouchedGainsNothing(s, after, i);
    } else {
      assert after.flights == s.flights && after.held == s.held;
      assert Flying(after, i) <==> Flying(s, i);
    }
  }

  lemma StepGainsNothing(s: State, e: Event, i: nat)
    requires HandsKnown(s) && i < |s.rows| && SafeAt(s, i) && Considerate(s, e) && !e.RecordTick?
    ensures |Step(s, e).rows| == |s.rows| && NoGain(s, Step(s, e), i)
  {
    match e {
      case ExecuteHeld(a) => ExecuteGainsNothing(s, a, i);
      case Approve(a, mine, overrides, director) => ApproveGainsNothing(s, a, mine, overrides, director, i);
      case Attempt(k, result) => AttemptGainsNothing(s, k, result, i);
      case _ => OthersGainNothing(s, e, i);
    }
  }

  lemma StepKeepsHands(s: State, e: Event)
    requires HandsKnown(s) && !e.RecordTick?
    ensures HandsKnown(Step(s, e)) && |Step(s, e).rows| == |s.rows|
  {
    if e.Attempt? {
      var after := AttemptStep(s, e.start, e.result);
      assert forall k :: k in after.flights ==> k in s.flights && after.flights[k].id == s.flights[k].id;
    }
  }

  // A new row is nobody's before it is recorded, and the gate saw no living one in its window.
  lemma NewRowKeepsSpaced(s: State, row: Row, held: map<nat, Director>)
    requires Spaced(s)
    requires row.ts == s.clock && row.key == Key(row.kind, row.proposed)
    requires || (row.outcome == Skipped && held == s.held)
             || (&& row.outcome == Pending && !IsDuplicate(s.rows, row.key, s.clock)
                 && |s.rows| in held && held - {|s.rows|} == s.held)
    ensures Spaced(s.(rows := s.rows + [row], held := held))
  {
    var after := s.(rows := s.rows + [row], held := held);
    assert forall i :: i in held && i != |s.rows| ==> i in held - {|s.rows|};
    assert forall i :: 0 <= i < |s.rows| ==> (i in held <==> i in s.held) && (i in held ==> held[i] == s.held[i]);
    assert forall i: nat :: Flying(after, i) <==> Flying(s, i);
    assert !Flying(s, |s.rows|);
    forall i | 0 <= i < |after.rows|
      ensures SafeAt(after, i)
    {
      if i < |s.rows| { assert SafeAt(s, i); }
    }
    forall i, j | 0 <= i < j < |after.rows|
      ensures Apart(after, i, j)
    {
      assert SafeAt(s, i);
      if j < |s.rows| { assert Apart(s, i, j); }
    }
  }

  lemma RecordOneKeepsSpaced(s: State, p: Proposal, cost: real, director: Director)
    requires Spaced(s)
    ensures Spaced(RecordOne(s, p, cost, director))
  {
    var after := RecordOne(s, p, cost, director);
    var row := after.rows[|s.rows|];
    assert after == s.(rows := s.rows + [row], held := after.held);
    assert |s.rows| !in s.held;
    assert row.outcome == Pending ==> after.held - {|s.rows|} == s.held;
    NewRowKeepsSpaced(s, row, after.held);
  }

  lemma {:induction false} RecordKeepsSpaced(s: State, ps: seq<Proposal>, costs: seq<real>, director: Director, n: nat)
    requires Spaced(s) && n <= |ps| == |costs|
    ensures Spaced(RecordAll(s, ps, costs, director, n))
  {
    if n > 0 {
      RecordKeepsSpaced(s, ps, costs, director, n - 1);
      RecordOneKeepsSpaced(RecordAll(s, ps, costs, director, n - 1), ps[n - 1], costs[n - 1], director);
    }
  }

  lemma StepKeepsSpaced(s: State, e: Event)
    requires Spaced(s) && Considerate(s, e)
    ensures Spaced(Step(s, e))
  {
    if e.RecordTick? {
      RecordKeepsSpaced(s, e.proposals, Slices(|e.proposals|, e.cost), e.director, |e.proposals|);
    } else {
      StepKeepsHands(s, e);
      forall i | 0 <= i < |s.rows|
        ensures NoGain(s, Step(s, e), i)
      {
        assert SafeAt(s, i);
        StepGainsNothing(s, e, i);
      }
      NoGainKeepsSpaced(s, Step(s, e));
    }
  }

  lemma {:induction false} RunKeepsSpaced(s: State, es: seq<Event>)
    requires Spaced(s) && Orderly(s, es)
    ensures Spaced(Run(s, es)) && Window(Run(s, es).rows)
    decreases |es|
  {
    if es != [] {
      StepKeepsSpaced(s, es[0]);
      RunKeepsSpaced(Step(s, es[0]), es[1..]);
    } else {
      forall i, j | 0 <= i < j < |s.rows|
                    && s.rows[i].key.Some? && s.rows[i].key == s.rows[j].key && Living(s.rows[i]) && Living(s.rows[j])
        ensures s.rows[j].ts - s.rows[i].ts >= WEEK
      {
        assert Apart(s, i, j);
      }
    }
  }

  // ---------------------------------------------------------------- theorems

  lemma DedupTheorem(es: seq<Event>)
    requires Orderly(EMPTY, es)
    ensures Window(Run(EMPTY, es).rows)
  {
    RunKeepsSpaced(EMPTY, es);
  }

  ghost predicate WindowAfter(s: State, es: seq<Event>) {
    Orderly(s, es) ==> Window(Run(s, es).rows)
  }

  // No other decision with this key keeps the gate shut.
  ghost predicate GateClear(s: State, id: nat)
    requires id < |s.rows|
  {
    forall j :: 0 <= j < |s.rows| && j != id && s.rows[j].key == s.rows[id].key && Living(s.rows[j]) ==>
        s.rows[j].ts + WEEK <= s.clock
  }

  lemma SpacedIsClear(s: State, id: nat)
    requires Spaced(s) && id < |s.rows| && Recent(s, id) && Living(s.rows[id])
    ensures GateClear(s, id)
  {
    forall j | 0 <= j < |s.rows| && j != id && s.rows[j].key == s.rows[id].key && Living(s.rows[j])
      ensures s.rows[j].ts + WEEK <= s.clock
    {
      assert SafeAt(s, id) && SafeAt(s, j);
      assert j < id ==> Apart(s, j, id);
      assert j > id ==> Apart(s, id, j);
    }
  }

  // The same proposal comes again while the decision is off the gate's list ...
  lemma GateLetsThrough(s: State, id: nat)
    requires HandsKnown(s) && id < |s.rows| && Recent(s, id) && !Living(s.rows[id]) && GateClear(s, id)
    requires s.rows[id].key == Key(s.rows[id].kind, s.rows[id].proposed)
    ensures var e := RecordTick([Proposal(s.rows[id].kind, s.rows[id].proposed)], 0.0, QUIET);
            var after := Step(s, e);
            && |after.rows| == |s.rows| + 1 && after.rows[..|s.rows|] == s.rows
            && after.rows[|s.rows|].outcome == Pending
            && after.rows[|s.rows|].key == s.rows[id].key && after.rows[|s.rows|].ts == s.clock
            && after.flights == s.flights && after.starts == s.starts && after.held == s.held[|s.rows| := QUIET]
  {
    var p := Proposal(s.rows[id].kind, s.rows[id].proposed);
    var costs := Slices(1, 0.0);
    assert RecordAll(s, [p], costs, QUIET, 0) == s;
    assert RecordAll(s, [p], costs, QUIET, 1) == RecordOne(s, p, costs[0], QUIET);
    assert !IsDuplicate(s.rows, s.rows[id].key, s.clock);
  }

  const QUIET := Director(Propose, Authority(false, false, false, false, false, false, false))

  // ... and then the hand that has it brings it back to life.
  lemma Reviving(s: State, id: nat) returns (es: seq<Event>)
    requires HandsKnown(s) && id < |s.rows| && Revives(s, id)
    ensures Orderly(s, es)
    ensures var after := Run(s, es).rows;
            && |after| == |s.rows| && Living(after[id]) && after[id] == s.rows[id].(outcome := after[id].outcome)
            && forall j :: 0 <= j < |s.rows| && j != id ==> after[j] == s.rows[j]
  {
    if Flying(s, id) && s.rows[id].kind != AmendCharter {
      var k :| k in s.flights && s.flights[k].id == id;
      es := [Attempt(k, Succeeds)];
      OneStep(s, Attempt(k, Succeeds));
    } else if SettledTo(s.rows[id].kind, s.held[id]).Some? {
      es := [ExecuteHeld(id)];
      OneStep(s, ExecuteHeld(id));
    } else {
      var run, end := ExecuteHeld(id), Attempt(|s.starts|, Succeeds);
      es := [run] + [end];
      OneStep(s, run);
      RunOneMore(s, [run], end);
      var started := Step(s, run);
      assert started.flights[|s.starts|].id == id && started.rows == s.rows;
    }
  }

  lemma DroppedBreaksWindow(s: State, id: nat) returns (es: seq<Event>)
    requires HandsKnown(s) && id < |s.rows| && Recent(s, id) && !Living(s.rows[id]) && GateClear(s, id)
    requires s.rows[id].key == Key(s.rows[id].kind, s.rows[id].proposed) && Revives(s, id) && s.rows[id].ts <= s.clock
    ensures !WindowAfter(s, es)
  {
    var e := RecordTick([Proposal(s.rows[id].kind, s.rows[id].proposed)], 0.0, QUIET);
    GateLetsThrough(s, id);
    var again := Step(s, e);
    OneStep(s, e);
    assert again.rows[id] == again.rows[..|s.rows|][id];
    assert Flying(again, id) <==> Flying(s, id);
    var back := Reviving(again, id);
    es := [e] + back;
    RunSplits(s, [e], back);
    var rows := Run(again, back).rows;
    assert rows[|s.rows|] == again.rows[|s.rows|];
    assert Living(rows[id]) && Living(rows[|s.rows|]);
  }

  // A rejection keeps the window, in every orderly continuation, exactly when the decision is
  // not deduplicated, or a week old, or in no hand that can revive it.
  lemma RejectionWindowIff(s: State, id: nat)
    requires Spaced(s) && id < |s.rows| && s.rows[id].outcome == Pending
    ensures (forall es: seq<Event> :: WindowAfter(Step(s, Reject(id, true)), es)) <==> !Recent(s, id) || !Revives(s, id)
  {
    DroppingIff(s, id, Step(s, Reject(id, true)));
  }

  // And so does an approval that the authority refuses.
  lemma RefusedApprovalWindowIff(s: State, id: nat, overrides: Payload, director: Director)
    requires Spaced(s) && id < |s.rows| && s.rows[id].outcome == Pending
             && !Allowed(s.rows[id].kind, director.authority)
    ensures (forall es: seq<Event> :: WindowAfter(Step(s, Approve(id, true, overrides, director)), es))
            <==> !Recent(s, id) || !Revives(s, id)
  {
    DroppingIff(s, id, Step(s, Approve(id, true, overrides, director)));
  }

  // A step that takes one pending decision off the gate's list, and nothing else.
  lemma DroppingIff(s: State, id: nat, after: State)
    requires Spaced(s) && id < |s.rows| == |after.rows| && s.rows[id].outcome == Pending
    requires after == s.(rows := s.rows[id := after.rows[id]])
    requires after.rows[id] == s.rows[id].(payload := after.rows[id].payload, outcome := after.rows[id].outcome)
    requires after.rows[id].outcome == Rejected || after.rows[id].outcome == Skipped
    ensures (forall es: seq<Event> :: WindowAfter(after, es)) <==> !Recent(s, id) || !Revives(s, id)
  {
    assert SafeAt(s, id);
    assert forall i: nat :: Flying(after, i) <==> Flying(s, i);
    if Recent(s, id) && Revives(s, id) {
      SpacedIsClear(s, id);
      var es := DroppedBreaksWindow(after, id);
    } else {
      forall i | 0 <= i < |s.rows|
        ensures NoGain(s, after, i)
      {
        assert SafeAt(s, i);
      }
      NoGainKeepsSpaced(s, after);
      forall es: seq<Event>
        ensures WindowAfter(after, es)
      {
        if Orderly(after, es) { RunKeepsSpaced(after, es); }
      }
    }
  }

  // A permitted approval keeps it exactly when the decision is not deduplicated, or a week old,
  // or not in hand, or an amend_charter that no hand can revive.
  lemma ApprovalWindowIff(s: State, id: nat, overrides: Payload, director: Director)
    requires Spaced(s) && id < |s.rows| && s.rows[id].outcome == Pending && Allowed(s.rows[id].kind, director.authority)
    ensures (forall es: seq<Event> :: WindowAfter(Step(s, Approve(id, true, overrides, director)), es))
            <==> !Recent(s, id) || !InHand(s, id) || (s.rows[id].kind == AmendCharter && !Revives(s, id))
  {
    var approved := Step(s, Approve(id, true, overrides, director));
    assert SafeAt(s, id);
    if !Recent(s, id) || !InHand(s, id) || (s.rows[id].kind == AmendCharter && !Revives(s, id)) {
      ApprovalKeepsSpaced(s, id, overrides, director);
      forall es: seq<Event>
        ensures WindowAfter(approved, es)
      {
        if Orderly(approved, es) { RunKeepsSpaced(approved, es); }
      }
    } else {
      SpacedIsClear(s, id);
      var es := TwoHandsBreakWindow(s, id, overrides, director);
    }
  }

  lemma ApprovalKeepsSpaced(s: State, id: nat, overrides: Payload, director: Director)
    requires Spaced(s) && id < |s.rows| && s.rows[id].outcome == Pending && Allowed(s.rows[id].kind, director.authority)
    requires !Recent(s, id) || !InHand(s, id) || (s.rows[id].kind == AmendCharter && !Revives(s, id))
    ensures Spaced(Step(s, Approve(id, true, overrides, director)))
  {
    var approved := Step(s, Approve(id, true, overrides, director));
    StepKeepsHands(s, Approve(id, true, overrides, director));
    forall i | 0 <= i < |s.rows|
      ensures NoGain(s, approved, i)
    {
      assert SafeAt(s, i);
      if i != id {
        UntouchedGainsNothing(s, approved, i);
      } else {
        assert forall k :: k in approved.flights && approved.flights[k].id == id ==> k == |s.starts| || Flying(s, id);
      }
    }
    NoGainKeepsSpaced(s, approved);
  }

  lemma DropBreaksWindow(s: State, id: nat, drop: Event) returns (es: seq<Event>)
    requires HandsKnown(s) && (drop.Attempt? || drop.ExecuteHeld?)
    requires var d := Step(s, drop);
             && id < |d.rows| && Recent(d, id) && !Living(d.rows[id]) && GateClear(d, id) && Revives(d, id)
             && d.rows[id].key == Key(d.rows[id].kind, d.rows[id].proposed) && d.rows[id].ts <= d.clock
    ensures !WindowAfter(s, es)
  {
    OneStep(s, drop);
    StepKeepsHands(s, drop);
    var rest := DroppedBreaksWindow(Step(s, drop), id);
    es := [drop] + rest;
    RunSplits(s, [drop], rest);
  }

  // One hand takes the decision off the list, the other brings it back.
  lemma TwoHandsBreakWindow(s: State, id: nat, overrides: Payload, director: Director) returns (es: seq<Event>)
    requires Spaced(s) && id < |s.rows| && s.rows[id].outcome == Pending && Allowed(s.rows[id].kind, director.authority)
    requires Recent(s, id) && InHand(s, id) && (s.rows[id].kind == AmendCharter ==> Revives(s, id)) && GateClear(s, id)
    ensures !WindowAfter(Step(s, Approve(id, true, overrides, director)), es)
  {
    assert SafeAt(s, id);
    ApprovalStarts(s, id, overrides, director);
    StepKeepsHands(s, Approve(id, true, overrides, director));
    if Revives(s, id) {
      es := FailedRunBreaksWindow(s, id, overrides, director);
    } else {
      var approved := Step(s, Approve(id, true, overrides, director));
      assert id in s.held && Harmless(s.rows[id].kind, s.held[id]);
      assert approved.flights[|s.starts|].id == id;
      assert Flying(Step(approved, ExecuteHeld(id)), id);
      es := DropBreaksWindow(approved, id, ExecuteHeld(id));
    }
  }

  lemma FailedRunBreaksWindow(s: State, id: nat, overrides: Payload, director: Director) returns (es: seq<Event>)
    requires Spaced(s) && id < |s.rows| && s.rows[id].outcome == Pending && Allowed(s.rows[id].kind, director.authority)
    requires Recent(s, id) && Revives(s, id) && GateClear(s, id)
    ensures !WindowAfter(Step(s, Approve(id, true, overrides, director)), es)
  {
    assert SafeAt(s, id);
    var approved, k := Step(s, Approve(id, true, overrides, director)), |s.starts|;
    ApprovalStarts(s, id, overrides, director);
    StepKeepsHands(s, Approve(id, true, overrides, director));
    FailureEnds(approved, k);
    var dropped := Step(approved, Attempt(k, Throws(0, false)));
    assert dropped.flights == s.flights;
    assert Flying(dropped, id) <==> Flying(s, id);
    es := DropBreaksWindow(approved, id, Attempt(k, Throws(0, false)));
  }

  // Two steps of one tick lead from an empty ledger to such a state: a decision in flight
  // whose rejection breaks the window.
  lemma RejectionOpensTheGate(p: Proposal, cost: real, director: Director)
    requires Keyed(p.kind) && SettledTo(p.kind, director) == None
    ensures var es := [RecordTick([p], cost, director)] + [ExecuteHeld(0)];
            var s := Run(EMPTY, es);
            && Orderly(EMPTY, es) && |s.rows| == 1
            && !forall more: seq<Event> :: WindowAfter(Step(s, Reject(0, true)), more)
  {
    var es := [RecordTick([p], cost, director)] + [ExecuteHeld(0)];
    FlyingFromEmpty(p, cost, director);
    RunKeepsSpaced(EMPTY, es);
    RejectionWindowIff(Run(EMPTY, es), 0);
  }
}
