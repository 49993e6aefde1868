/**
 Human-gated parks (src/scheduler/worker.ts:27, 276-284): once the newest row of an issue is
 no_changes without a PR, nothing dispatches the issue to analyze or patch again; a
 guardrail_blocked one waits for its label to go or for the admin's Retry.
 */
module Parking {
  import opened Wrappers
  import opened PrBranches
  import opened Lanes

  // What the worker has in hand was dispatched past the gate, or carries its PR number.
  ghost predicate Attended(cfg: Config, s: State) {
    && UniqueKeys(s.rows)
    && match s.job
       case Analyzing(issue) => cfg.IsIssue(issue) && !Gated(s.rows, issue)
       case Patching(issue, _) => cfg.IsIssue(issue) && !Gated(s.rows, issue)
       case Reading(pr, row, _) => !cfg.IsIssue(pr) && row < |s.rows| && s.rows[row].pr == Some(pr)
       case Dialog(pr, row, _) => !cfg.IsIssue(pr) && row < |s.rows| && s.rows[row].pr == Some(pr)
       case Merging(pr, row, _, _) => !cfg.IsIssue(pr) && row < |s.rows| && s.rows[row].pr == Some(pr)
       case _ => true
  }

  // The issue's newest row is parked, has no PR, and no poll holds a stale listing of it.
  ghost predicate Parked(s: State, issue: nat, parks: set<RowStatus>) {
    match NewestOf(s.rows, issue)
    case Some(n) => s.rows[n].status in parks && s.rows[n].pr == None && n !in s.poll
    case None => false
  }

  lemma NewestStays(rows: Rows, after: Rows, task: nat)
    requires |rows| <= |after|
    requires forall i :: 0 <= i < |rows| ==> after[i].task == rows[i].task
    requires forall i :: |rows| <= i < |after| ==> after[i].task != task
    ensures NewestOf(after, task) == NewestOf(rows, task)
  {
  }

  lemma OutsideKeepsGate(cfg: Config, s: State, e: Event, issue: nat)
    requires !FromWorker(e)
    ensures Gated(Step(cfg, s, e).rows, issue) ==> Gated(s.rows, issue)
  {
    OutsideMovesStatus(cfg, s, e);
    NewestStays(s.rows, Step(cfg, s, e).rows, issue);
  }

  lemma RecordKeepsKeys(rows: Rows, task: nat, branch: string, pr: Option<nat>, status: RowStatus)
    requires UniqueKeys(rows)
    ensures UniqueKeys(Recorded(rows, task, branch, pr, status))
  {
    RecordWritesOneRow(rows, task, branch, pr, status);
  }

  lemma DialogKeepsAttended(cfg: Config, s: State, result: DialogResult)
    requires Attended(cfg, s)
    ensures Attended(cfg, DialogEndsStep(s, result))
  {
    if s.job.Dialog? {
      var pr, row := s.job.pr, s.job.row;
      var r := s.rows[row];
      match result {
        case DialogDirty => RecordKeepsKeys(s.rows, pr, r.branch, Some(pr), Dirty);
        case DialogNeedsHuman => RecordKeepsKeys(s.rows, r.task, r.branch, Some(pr), NeedsHuman);
        case DialogBlocked => RecordKeepsKeys(s.rows, r.task, r.branch, Some(pr), GuardrailBlocked);
        case Pushed(_) =>
          var bumped := Bumped(s.rows, row);
          assert UniqueKeys(bumped);
          OwnKey(bumped, row);
          RecordWritesOneRow(bumped, r.task, r.branch, Some(pr), Open);
        case DialogFailed =>
      }
    }
  }

  lemma PatchKeepsAttended(cfg: Config, s: State, result: PatchResult)
    requires Attended(cfg, s)
    ensures Attended(cfg, PatchEndsStep(cfg, s, result))
  {
    if s.job.Patching? {
      var issue, branch := s.job.issue, s.job.branch;
      match result {
        case PrOpened(pr) => RecordKeepsKeys(s.rows, issue, branch, Some(pr), Open);
        case WorktreeDirty => RecordKeepsKeys(s.rows, issue, branch, None, Dirty);
        case NothingCommitted => RecordKeepsKeys(s.rows, issue, branch, None, NoChanges);
        case Blocked => RecordKeepsKeys(s.rows, issue, branch, None, GuardrailBlocked);
        case PatchFailed => RecordKeepsKeys(s.rows, issue, branch, None, Errored);
      }
    }
  }

  lemma StepKeepsAttended(cfg: Config, s: State, e: Event)
    requires Attended(cfg, s)
    ensures Attended(cfg, Step(cfg, s, e))
  {
    if !FromWorker(e) {
      OutsideMovesStatus(cfg, s, e);
      match s.job {
        case Analyzing(issue) => OutsideKeepsGate(cfg, s, e, issue);
        case Patching(issue, _) => OutsideKeepsGate(cfg, s, e, issue);
        case _ =>
      }
    } else {
      match e {
        case PatchEnds(result) => PatchKeepsAttended(cfg, s, result);
        case DialogEnds(result) => DialogKeepsAttended(cfg, s, result);
        case _ =>
      }
    }
  }

  // ------------------------------------------------------------ staying parked

  ghost predicate NotWorkedOn(s: State, issue: nat) {
    match s.job
    case Analyzing(i) => i != issue
    case Patching(i, _) => i != issue
    case _ => true
  }

  // A worker result lands on another task, or on a row that carries a PR number.
  lemma RecordElsewhereKeepsParked(s: State, after: State, issue: nat, parks: set<RowStatus>,
                                   task: nat, branch: string, pr: Option<nat>, status: RowStatus)
    requires UniqueKeys(s.rows) && Parked(s, issue, parks)
    requires after.rows == Recorded(s.rows, task, branch, pr, status) && after.poll == s.poll
    requires task != issue || (RecordedAt(s.rows, task, branch) < |s.rows|
             && s.rows[RecordedAt(s.rows, task, branch)].pr.Some?)
    ensures Parked(after, issue, parks)
  {
    RecordWritesOneRow(s.rows, task, branch, pr, status);
    NewestStays(s.rows, after.rows, issue);
  }

  lemma PatchKeepsParked(cfg: Config, s: State, result: PatchResult, issue: nat, parks: set<RowStatus>)
    requires Attended(cfg, s) && cfg.IsIssue(issue)
    requires Parked(s, issue, parks) && parks <= TERMINAL
    ensures Parked(PatchEndsStep(cfg, s, result), issue, parks)
  {
    if s.job.Patching? {
      var after := PatchEndsStep(cfg, s, result);
      var i, branch := s.job.issue, s.job.branch;
      assert i != issue;
      match result {
        case PrOpened(pr) =>
          if FreshPr(cfg, s, pr) { RecordElsewhereKeepsParked(s, after, issue, parks, i, branch, Some(pr), Open); }
        case WorktreeDirty => RecordElsewhereKeepsParked(s, after, issue, parks, i, branch, None, Dirty);
        case NothingCommitted => RecordElsewhereKeepsParked(s, after, issue, parks, i, branch, None, NoChanges);
        case Blocked => RecordElsewhereKeepsParked(s, after, issue, parks, i, branch, None, GuardrailBlocked);
        case PatchFailed => RecordElsewhereKeepsParked(s, after, issue, parks, i, branch, None, Errored);
      }
    }
  }

  lemma DialogKeepsParked(cfg: Config, s: State, result: DialogResult, issue: nat, parks: set<RowStatus>)
    requires Attended(cfg, s) && cfg.IsIssue(issue)
    requires Parked(s, issue, parks)
    ensures Parked(DialogEndsStep(s, result), issue, parks)
  {
    if s.job.Dialog? {
      var after := DialogEndsStep(s, result);
      var pr, row := s.job.pr, s.job.row;
      var r := s.rows[row];
      OwnKey(s.rows, row);
      match result {
        case DialogDirty => RecordElsewhereKeepsParked(s, after, issue, parks, pr, r.branch, Some(pr), Dirty);
        case DialogNeedsHuman =>
          RecordElsewhereKeepsParked(s, after, issue, parks, r.task, r.branch, Some(pr), NeedsHuman);
        case DialogBlocked =>
          RecordElsewhereKeepsParked(s, after, issue, parks, r.task, r.branch, Some(pr), GuardrailBlocked);
        case Pushed(_) =>
          var mid := s.(rows := Bumped(s.rows, row));
          assert UniqueKeys(mid.rows);
          NewestStays(s.rows, mid.rows, issue);
          OwnKey(mid.rows, row);
          RecordElsewhereKeepsParked(mid, after, issue, parks, r.task, r.branch, Some(pr), Open);
        case DialogFailed =>
      }
    }
  }

  // The other worker steps write no row, or close or count the row of a PR in hand.
  lemma OthersKeepParked(cfg: Config, s: State, e: Event, issue: nat, parks: set<RowStatus>)
    requires Attended(cfg, s) && Parked(s, issue, parks)
    requires FromWorker(e) && !e.PatchEnds? && !e.DialogEnds?
    ensures Parked(Step(cfg, s, e), issue, parks)
  {
    var after := Step(cfg, s, e);
    OthersWritePulls(cfg, s, e);
    NewestStays(s.rows, after.rows, issue);
  }

  lemma OthersWritePulls(cfg: Config, s: State, e: Event)
    requires Attended(cfg, s)
    requires FromWorker(e) && !e.PatchEnds? && !e.DialogEnds?
    ensures var after := Step(cfg, s, e);
            && after.poll <= s.poll && |after.rows| == |s.rows|
            && forall i :: 0 <= i < |s.rows| ==>
                             after.rows[i].task == s.rows[i].task && (after.rows[i] == s.rows[i] || s.rows[i].pr.Some?)
  {
  }

  predicate Unblocks(e: Event, issue: nat) {
    e == Unblock(issue)
  }

  lemma StepKeepsParked(cfg: Config, s: State, e: Event, issue: nat, parks: set<RowStatus>)
    requires Attended(cfg, s) && cfg.IsIssue(issue)
    requires Parked(s, issue, parks) && parks <= TERMINAL
    requires GuardrailBlocked in parks ==> !Unblocks(e, issue)
    ensures Parked(Step(cfg, s, e), issue, parks)
  {
    if FromWorker(e) {
      match e {
        case PatchEnds(result) => PatchKeepsParked(cfg, s, result, issue, parks);
        case DialogEnds(result) => DialogKeepsParked(cfg, s, result, issue, parks);
        case _ => OthersKeepParked(cfg, s, e, issue, parks);
      }
    } else {
      OutsideMovesStatus(cfg, s, e);
      NewestStays(s.rows, Step(cfg, s, e).rows, issue);
    }
  }

  lemma ParkedIsLeftAlone(cfg: Config, s: State, issue: nat, parks: set<RowStatus>)
    requires Attended(cfg, s) && Parked(s, issue, parks) && parks <= TERMINAL
    ensures Gated(s.rows, issue) && NotWorkedOn(s, issue)
    ensures forall open, labelled, on ::
              PickLane(s, issue, open, labelled, on) == None || PickLane(s, issue, open, labelled, on) == Some(Triage)
  {
  }

  // In every run from a reachable state: a park outlives it, and at its end as at every point
  // before (a prefix is a run) the issue is not worked on and would not be picked.
  lemma {:induction false} ParkedStaysParked(cfg: Config, s: State, es: seq<Event>, issue: nat, parks: set<RowStatus>)
    requires Attended(cfg, s) && cfg.IsIssue(issue)
    requires Parked(s, issue, parks) && parks <= TERMINAL
    requires GuardrailBlocked in parks ==> forall i :: 0 <= i < |es| ==> !Unblocks(es[i], issue)
    ensures Attended(cfg, Run(cfg, s, es)) && Parked(Run(cfg, s, es), issue, parks)
    ensures Gated(Run(cfg, s, es).rows, issue) && NotWorkedOn(Run(cfg, s, es), issue)
    decreases |es|
  {
    if es == [] {
      ParkedIsLeftAlone(cfg, s, issue, parks);
    } else {
      StepKeepsAttended(cfg, s, es[0]);
      StepKeepsParked(cfg, s, es[0], issue, parks);
      ParkedStaysParked(cfg, Step(cfg, s, es[0]), es[1..], issue, parks);
    }
  }

  lemma {:induction false} ReachableIsAttended(cfg: Config, s: State, es: seq<Event>)
    requires Attended(cfg, s)
    ensures Attended(cfg, Run(cfg, s, es))
    decreases |es|
  {
    if es != [] {
      StepKeepsAttended(cfg, s, es[0]);
      ReachableIsAttended(cfg, Step(cfg, s, es[0]), es[1..]);
    }
  }

  // From boot: an issue parked after `es` is, after any further run, neither worked on nor
  // picked by analyze or a patch lane, whatever its labels and the enabled lanes are.
  lemma ParkingTheorem(cfg: Config, es: seq<Event>, more: seq<Event>, issue: nat, parks: set<RowStatus>)
    requires cfg.IsIssue(issue) && parks <= TERMINAL
    requires Parked(Run(cfg, EMPTY, es), issue, parks)
    requires GuardrailBlocked in parks ==> forall i :: 0 <= i < |more| ==> !Unblocks(more[i], issue)
    ensures var s := Run(cfg, EMPTY, es + more);
            && NotWorkedOn(s, issue)
            && forall open, labelled, on ::
                 PickLane(s, issue, open, labelled, on) in {None, Some(Triage)}
  {
    ReachableIsAttended(cfg, EMPTY, es);
    ParkedStaysParked(cfg, Run(cfg, EMPTY, es), more, issue, parks);
    RunSplits(cfg, EMPTY, es, more);
    ParkedIsLeftAlone(cfg, Run(cfg, EMPTY, es + more), issue, parks);
  }

  predicate GatedAfter(cfg: Config, s: State, es: seq<Event>, issue: nat) {
    Gated(Run(cfg, s, es).rows, issue)
  }

  // Whatever happens without an unblock of the issue.
  ghost predicate StaysGated(cfg: Config, s: State, es: seq<Event>, issue: nat) {
    (forall i :: 0 <= i < |es| ==> !Unblocks(es[i], issue)) ==> GatedAfter(cfg, s, es, issue)
  }

  // The poll closes the row it has listed, whatever has become of it, and the gate opens.
  lemma CloseOpensGate(cfg: Config, s: State, issue: nat)
    requires NewestOf(s.rows, issue).Some? && NewestOf(s.rows, issue).value in s.poll
    ensures !GatedAfter(cfg, s, [PollClose(NewestOf(s.rows, issue).value)], issue)
  {
    var close := PollClose(NewestOf(s.rows, issue).value);
    NewestStays(s.rows, Step(cfg, s, close).rows, issue);
    OneStep(cfg, s, close);
  }

  // A parked issue stays so until it is unblocked exactly when its newest row has no pull request
  // and the poll in progress has not listed it, as it may have done while there was one.
  lemma ParkIsFinalIff(cfg: Config, s: State, issue: nat)
    requires Attended(cfg, s) && cfg.IsIssue(issue) && Gated(s.rows, issue)
    ensures var n := NewestOf(s.rows, issue).value;
            (forall es: seq<Event> :: StaysGated(cfg, s, es, issue)) <==> s.rows[n].pr == None && n !in s.poll
  {
    var n := NewestOf(s.rows, issue).value;
    if n in s.poll {
      CloseOpensGate(cfg, s, issue);
      assert !StaysGated(cfg, s, [PollClose(n)], issue);
    } else if s.rows[n].pr == None {
      forall es: seq<Event>
        ensures StaysGated(cfg, s, es, issue)
      {
        if forall i :: 0 <= i < |es| ==> !Unblocks(es[i], issue) { ParkedStaysParked(cfg, s, es, issue, TERMINAL); }
      }
    } else {
      var es := [PollList({n})] + [PollClose(n)];
      var listed := Step(cfg, s, PollList({n}));
      assert n in listed.poll && listed.rows == s.rows;
      CloseOpensGate(cfg, listed, issue);
      OneStep(cfg, s, PollList({n}));
      RunSplits(cfg, s, [PollList({n})], [PollClose(n)]);
      assert !StaysGated(cfg, s, es, issue);
    }
  }

  // An unblock does not lift no_changes, so there the same holds of every continuation.
  lemma NoChangesIsFinalIff(cfg: Config, s: State, issue: nat)
    requires Attended(cfg, s) && cfg.IsIssue(issue)
    requires NewestOf(s.rows, issue).Some?
    requires s.rows[NewestOf(s.rows, issue).value].status == NoChanges
    requires s.rows[NewestOf(s.rows, issue).value].pr == None
    ensures NewestOf(s.rows, issue).value !in s.poll
            <==> forall es: seq<Event> :: GatedAfter(cfg, s, es, issue)
  {
    var n := NewestOf(s.rows, issue).value;
    if n !in s.poll {
      forall es: seq<Event>
        ensures GatedAfter(cfg, s, es, issue)
      {
        ParkedStaysParked(cfg, s, es, issue, {NoChanges});
      }
    } else {
      CloseOpensGate(cfg, s, issue);
    }
  }
}
