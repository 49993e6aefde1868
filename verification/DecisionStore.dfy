/**
 The decision table and the operations on it as they run: rows updated in place, one method
 per stretch of code without an await (src/director/tick.ts:410-486,
 src/director/executor.ts:68-112, 493-623, src/director/decisions.ts:87-179).  Each operation
 adds one event of the state machine in DecisionLedger to the trace, and the fields are always
 what the trace leads to, so what is proved of runs holds of the table: the lemmas at the end
 say it.
 */
module DecisionStore {
  import opened Wrappers
  import opened DecisionPolicy
  import opened DecisionKeys
  import opened DecisionLedger
  import LedgerLaws
  import EffectSafety
  import DedupWindow

  // Spreads a tick's cost: equal shares in whole micro-dollars, the rest with the first.
  method SplitCost(n: nat, cost: real) returns (costs: seq<real>)
    ensures costs == Slices(n, cost)
  {
    costs := [];
    if n == 0 { return; }
    var each := Each(n, cost);
    var remainder := cost - each * n as real;
    while |costs| < n
      invariant |costs| <= n
      invariant remainder == if costs == [] then cost - each * n as real else 0.0
      invariant costs == Slices(n, cost)[..|costs|]
    {
      var slice := each + remainder;
      remainder := 0.0;
      assert slice == Slices(n, cost)[|costs|];
      costs := costs + [slice];
    }
  }

  class DecisionTable {
    var rows: seq<Row>
    var held: map<nat, Director>
    var flights: map<nat, Flight>
    var clock: int
    ghost var starts: seq<nat>
    ghost var losses: seq<nat>
    ghost var tries: seq<Try>
    ghost var effects: seq<Effect>
    var started: nat
    ghost var trace: seq<Event>

    ghost predicate Numbered()
      reads this
    {
      started == |starts|
    }

    ghost predicate Valid()
      reads this
    {
      Numbered() && View() == Run(DecisionLedger.EMPTY, trace)
    }

    ghost function View(): State
      reads this
    {
      State(rows, held, flights, starts, losses, tries, effects, clock)
    }

    constructor ()
      ensures Valid() && trace == []
    {
      rows, held, flights, clock, started := [], map[], map[], 0, 0;
      starts, losses, tries, effects, trace := [], [], [], [], [];
    }

    // The next event enters the trace; the fields have yet to follow.
    ghost method Happened(e: Event)
      requires Valid()
      modifies this`trace
      ensures trace == old(trace) + [e] && Run(DecisionLedger.EMPTY, trace) == Step(View(), e)
    {
      RunOneMore(DecisionLedger.EMPTY, trace, e);
      trace := trace + [e];
    }

    // findRecentDuplicate: the newest living decision of the window, if any.
    method CheckForDuplicate(key: Option<string>) returns (duplicateOf: Option<nat>)
      ensures duplicateOf.Some? <==> IsDuplicate(rows, key, clock)
      ensures duplicateOf.Some? ==>
                && duplicateOf.value < |rows| && rows[duplicateOf.value].key == key
                && Living(rows[duplicateOf.value]) && rows[duplicateOf.value].ts > clock - WEEK
                && forall j :: duplicateOf.value < j < |rows| ==>
                     rows[j].key != key || !Living(rows[j]) || rows[j].ts <= clock - WEEK
    {
      duplicateOf := None;
      if key.None? { return; }
      var i := |rows|;
      while i > 0
        invariant 0 <= i <= |rows|
        invariant forall j :: i <= j < |rows| ==> rows[j].key != key || !Living(rows[j]) || rows[j].ts <= clock - WEEK
      {
        i := i - 1;
        if rows[i].key == key && Living(rows[i]) && rows[i].ts > clock - WEEK { return Some(i); }
      }
    }

    // One decision of a tick; false when it was recorded as a duplicate.
    method RecordDecision(p: Proposal, cost: real, director: Director) returns (kept: bool)
      requires Numbered()
      modifies this`rows, this`held
      ensures Numbered() && View() == RecordOne(old(View()), p, cost, director)
      ensures kept <==> !IsDuplicate(old(rows), Key(p.kind, p.payload), clock)
      ensures |rows| == |old(rows)| + 1 && forall id :: 0 <= id < |old(rows)| ==> rows[id] == old(rows)[id]
      ensures rows[|old(rows)|].outcome == if kept then Pending else Skipped
    {
      var key := Key(p.kind, p.payload);
      var duplicateOf := CheckForDuplicate(key);
      var id := |rows|;
      rows := rows + [Row(clock, p.kind, p.payload, key, Pending, cost, p.payload)];
      if duplicateOf.Some? {
        rows := rows[id := rows[id].(outcome := Skipped)];
        return false;
      }
      held := held[id := director];
      kept := true;
    }

    // Returns the ids the executor is to see: exactly the new rows that are not duplicates.
    method RecordTickDecisions(ps: seq<Proposal>, cost: real, director: Director) returns (out: seq<nat>)
      requires Valid()
      modifies this`rows, this`held, this`trace
      ensures Valid() && trace == old(trace) + [RecordTick(ps, cost, director)]
      ensures |rows| == |old(rows)| + |ps|
      ensures forall id :: id in out <==> |old(rows)| <= id < |rows| && rows[id].outcome == Pending
    {
      Happened(RecordTick(ps, cost, director));
      var costs := SplitCost(|ps|, cost);
      out := RecordEach(ps, costs, director);
    }

    method RecordEach(ps: seq<Proposal>, costs: seq<real>, director: Director) returns (out: seq<nat>)
      requires Numbered() && |costs| == |ps|
      modifies this`rows, this`held
      ensures Numbered() && View() == RecordAll(old(View()), ps, costs, director, |ps|)
      ensures |rows| == |old(rows)| + |ps|
      ensures forall id :: id in out <==> |old(rows)| <= id < |rows| && rows[id].outcome == Pending
    {
      out := [];
      ghost var start := View();
      var i := 0;
      while i < |ps|
        invariant 0 <= i <= |ps| && Numbered() && |rows| == |start.rows| + i
        invariant View() == RecordAll(start, ps, costs, director, i)
        invariant forall id :: id in out <==> |start.rows| <= id < |rows| && rows[id].outcome == Pending
      {
        var kept := RecordDecision(ps[i], costs[i], director);
        if kept { out := out + [|rows| - 1]; }
        i := i + 1;
      }
    }

    method Finalize(id: nat, outcome: Outcome)
      requires id < |rows|
      modifies this`rows
      ensures rows == old(rows)[id := old(rows)[id].(outcome := outcome)]
    {
      rows := rows[id := rows[id].(outcome := outcome)];
    }

    method Launch(id: nat, director: Director, approved: bool, payload: Payload)
      requires Numbered()
      modifies this`flights, this`starts, this`started
      ensures Numbered() && View() == StartRun(old(View()), id, director, approved, payload)
    {
      flights := flights[started := Flight(id, director, approved, payload, 0)];
      starts := starts + [id];
      started := started + 1;
    }

    // The first half of executeDecision: what is settled at once, and what starts to run.
    method ExecuteDecision(id: nat) returns (settled: Option<Outcome>)
      requires Valid() && id in held && id < |rows|
      modifies this
      ensures Valid() && trace == old(trace) + [ExecuteHeld(id)]
      ensures settled.Some? ==> id < |rows| && rows[id].outcome == settled.value && flights == old(flights)
      ensures settled.None? ==> old(started) in flights && flights[old(started)].id == id && rows == old(rows)
    {
      Happened(ExecuteHeld(id));
      var director, kind := held[id], rows[id].kind;
      held := held - {id};
      if director.mode == DryRunMode {
        Finalize(id, DryRun);
        return Some(DryRun);
      }
      if !Allowed(kind, director.authority) {
        Finalize(id, Skipped);
        return Some(Skipped);
      }
      if NeedsApproval(kind, director.mode) {
        Finalize(id, Pending);
        return Some(Pending);
      }
      Launch(id, director, false, rows[id].proposed);
      settled := None;
    }

    method ApproveDecision(id: nat, mine: bool, overrides: Payload, director: Director) returns (accepted: bool)
      requires Valid()
      modifies this
      ensures Valid() && trace == old(trace) + [Approve(id, mine, overrides, director)]
      ensures accepted <==> id < |old(rows)| && old(rows)[id].outcome == Pending && mine
      ensures |rows| == |old(rows)|
      ensures accepted ==> LedgerLaws.Edited(old(rows)[id].kind, old(rows)[id].payload, overrides, rows[id].payload)
      ensures accepted && started != old(started) ==>
                old(started) in flights && flights[old(started)].payload == rows[id].payload
      ensures accepted ==> (started == old(started) <==> LedgerLaws.Forbidden(old(rows)[id].kind, director.authority))
    {
      Happened(Approve(id, mine, overrides, director));
      if id >= |rows| || rows[id].outcome != Pending || !mine { return false; }
      var kind := rows[id].kind;
      LedgerLaws.MergedIsEdited(kind, rows[id].payload, overrides);
      var payload := Merged(kind, rows[id].payload, overrides);
      rows := rows[id := rows[id].(payload := payload)];
      if !Allowed(kind, director.authority) {
        Finalize(id, Skipped);
      } else {
        Launch(id, director, true, payload);
      }
      accepted := true;
    }

    // One attempt of a run in flight; `done` when the run is over.
    method AttemptOnce(k: nat, result: TryResult) returns (done: bool)
      requires Valid() && k in flights && flights[k].id < |rows|
      modifies this
      ensures Valid() && trace == old(trace) + [Attempt(k, result)]
      ensures done <==> k !in flights
    {
      Happened(Attempt(k, result));
      done := Conclude(k, result);
    }

    method Conclude(k: nat, result: TryResult) returns (done: bool)
      requires k in flights && flights[k].id < |rows|
      modifies this`flights, this`rows, this`tries, this`effects
      ensures View() == Step(old(View()), Attempt(k, result))
      ensures done <==> k !in flights
    {
      var f := flights[k];
      var kind := rows[f.id].kind;
      var effective := if kind == AmendCharter then Throws(0, false) else result;
      if effective.Succeeds? {
        Log(k, f, true, CallsOf(kind));
        EndFlight(k, Executed);
        return true;
      }
      Log(k, f, false, CallsOf(kind)[..Min(effective.issued, |CallsOf(kind)|)]);
      if effective.transient && f.tries < RETRIES {
        flights := flights[k := f.(tries := f.tries + 1)];
        return false;
      }
      EndFlight(k, Failed);
      done := true;
    }

    method EndFlight(k: nat, outcome: Outcome)
      requires k in flights && flights[k].id < |rows|
      modifies this`flights, this`rows
      ensures flights == old(flights) - {k}
      ensures rows == old(rows)[old(flights)[k].id := old(rows)[old(flights)[k].id].(outcome := outcome)]
    {
      var id := flights[k].id;
      flights := flights - {k};
      Finalize(id, outcome);
    }

    ghost method Log(k: nat, f: Flight, ok: bool, calls: seq<Call>)
      modifies this`tries, this`effects
      ensures tries == old(tries) + [Try(k, f.id, ok)] && effects == old(effects) + Effects(f, calls)
    {
      tries := tries + [Try(k, f.id, ok)];
      effects := effects + Effects(f, calls);
    }

    method RejectDecision(id: nat, mine: bool) returns (accepted: bool)
      requires Valid()
      modifies this`rows, this`trace
      ensures Valid() && trace == old(trace) + [Reject(id, mine)]
      ensures accepted <==> id < |old(rows)| && old(rows)[id].outcome == Pending && mine
    {
      Happened(Reject(id, mine));
      if id >= |rows| || rows[id].outcome != Pending || !mine { return false; }
      Finalize(id, Rejected);
      accepted := true;
    }

    // Returns how many were expired.
    method ExpireStalePending() returns (changes: nat)
      requires Valid()
      modifies this`rows, this`trace
      ensures Valid() && trace == old(trace) + [Expire]
      ensures changes == |set i | 0 <= i < |old(rows)| && Stale(old(rows)[i], clock)|
    {
      Happened(Expire);
      var stale := set i | 0 <= i < |rows| && Stale(rows[i], clock);
      changes := |stale|;
      rows := ExpiredRows(rows, clock);
    }

    method Wait(seconds: nat)
      requires Valid()
      modifies this`clock, this`trace
      ensures Valid() && trace == old(trace) + [Pass(seconds)]
    {
      Happened(Pass(seconds));
      clock := clock + seconds;
    }

    // A crash takes a run in flight, or what a tick was still holding.
    method CrashFlight(k: nat)
      requires Valid() && k in flights
      modifies this`flights, this`losses, this`trace
      ensures Valid() && trace == old(trace) + [LoseFlight(k)]
    {
      Happened(LoseFlight(k));
      losses := losses + [flights[k].id];
      flights := flights - {k};
    }

    method CrashHeld(id: nat)
      requires Valid()
      modifies this`held, this`trace
      ensures Valid() && trace == old(trace) + [LoseHeld(id)]
    {
      Happened(LoseHeld(id));
      held := held - {id};
    }
  }

  // ------------------------------------------------------- theorems of the table

  // However the methods have been called, what was done to the forge was permitted.
  lemma TableActsWithinAuthority(t: DecisionTable, i: nat)
    requires t.Valid() && i < |t.effects|
    ensures EffectSafety.Proper(t.rows, t.effects[i])
  {
    EffectSafety.EffectsTheorem(t.trace);
    assert t.effects[i] in Run(DecisionLedger.EMPTY, t.trace).effects;
  }

  // And when humans keep off decisions in hand, the table keeps the window.
  lemma TableKeepsWindow(t: DecisionTable)
    requires t.Valid() && Orderly(DecisionLedger.EMPTY, t.trace)
    ensures DedupWindow.Window(t.rows)
  {
    DedupWindow.DedupTheorem(t.trace);
  }
}
