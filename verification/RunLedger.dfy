/**
 The runs table and runJob around it, updated in place (src/supervisor/index.ts:77-165,
 src/storage/runs.ts:39-81).  Each method adds one event of the state machine in CostCap to the
 trace, and the fields are always what the trace leads to.
 */
module RunLedger {
  import opened Wrappers
  import opened CostCap

  class Supervisor {
    const lim: Limits
    var runs: seq<RunRow>
    var calls: map<nat, nat>
    var clock: nat
    ghost var trace: seq<Event>

    ghost predicate Valid()
      reads this
    {
      View() == Run(lim, EMPTY, trace)
    }

    ghost function View(): State
      reads this
    {
      State(runs, calls, clock)
    }

    constructor (lim: Limits)
      ensures this.lim == lim && Valid() && trace == []
    {
      this.lim := lim;
      runs, calls, clock, trace := [], map[], 0, [];
    }

    // The next event enters the trace; the fields have yet to follow.
    ghost method Happened(e: Event)
      requires Valid()
      modifies this`trace
      ensures trace == old(trace) + [e] && Run(lim, EMPTY, trace) == Step(lim, View(), e)
    {
      RunOneMore(lim, EMPTY, trace, e);
      trace := trace + [e];
    }

    // getCostUsdSince(now - 24h), by summing the rows.
    method CostSince() returns (total: real)
      ensures total == SpentSince(runs, clock)
    {
      total := 0.0;
      var i := 0;
      while i < |runs|
        invariant 0 <= i <= |runs|
        invariant total == SpentSince(runs[..i], clock)
      {
        if Counts(runs[i].started, clock) && runs[i].cost.Some? { total := total + runs[i].cost.value; }
        i := i + 1;
        assert runs[..i][..i - 1] == runs[..i - 1];
      }
      assert runs[..|runs|] == runs;
    }

    method CheckDailyCostCap() returns (exceeded: bool)
      ensures exceeded <==> CapReached(runs, clock, lim.cap)
    {
      if lim.cap <= 0.0 { return false; }
      var total := CostSince();
      exceeded := total >= lim.cap;
    }

    // runJob up to its await: the admission check and the run row are one step.
    method BeginJob(repo: nat) returns (id: Option<nat>)
      requires Valid() && repo in lim.repos && repo !in calls
      modifies this`runs, this`calls, this`trace
      ensures Valid() && trace == old(trace) + [Admit(repo)]
      ensures id == None <==> CapReached(old(runs), clock, lim.cap)
      ensures id.Some? ==> id.value == |old(runs)| && calls == old(calls)[repo := id.value]
    {
      Happened(Admit(repo));
      var exceeded := CheckDailyCostCap();
      if exceeded { return None; }
      id := Some(|runs|);
      calls := calls[repo := |runs|];
      runs := runs + [RunRow(clock, None, Running)];
    }

    // After the await, on both paths: an error leaves the cost NULL.
    method EndJob(repo: nat, end: JobEnd)
      requires Valid() && repo in calls && calls[repo] < |runs|
      modifies this`runs, this`calls, this`trace
      ensures Valid() && trace == old(trace) + [Ends(repo, end)]
      ensures |runs| == |old(runs)| && runs[old(calls)[repo]].status != Running
    {
      Happened(Ends(repo, end));
      var id := calls[repo];
      match end {
        case Answered(cost) => runs := runs[id := runs[id].(cost := cost, status := Ok)];
        case Threw => runs := runs[id := runs[id].(cost := None, status := Errored)];
      }
      calls := calls - {repo};
    }

    method Wait(seconds: nat)
      requires Valid()
      modifies this`clock, this`trace
      ensures Valid() && trace == old(trace) + [Pass(seconds)]
    {
      Happened(Pass(seconds));
      clock := clock + seconds;
    }

    // The boot sweep closes what the last process left running; returns how many.
    method Restart() returns (orphaned: nat)
      requires Valid()
      modifies this`runs, this`calls, this`trace
      ensures Valid() && trace == old(trace) + [Boot]
      ensures orphaned == |set i | 0 <= i < |old(runs)| && old(runs)[i].status == Running|
      ensures forall i :: 0 <= i < |runs| ==> runs[i].status != Running
    {
      Happened(Boot);
      var open := set i | 0 <= i < |runs| && runs[i].status == Running;
      orphaned := |open|;
      runs := Orphaned(runs);
      calls := map[];
    }
  }

  // Whatever has been called, with calls of at most `most`: the rows of a day cost less than
  // the cap and one call per worker.
  lemma LedgerKeepsCap(s: Supervisor, day: nat)
    requires s.Valid() && s.lim.Valid()
    requires forall i :: 0 <= i < |s.trace| ==> Bounded(s.lim, s.trace[i])
    ensures SpentOn(s.runs, day) < s.lim.cap + s.lim.most * |s.lim.repos| as real
  {
    CapTheorem(s.lim, s.trace, day);
  }
}
