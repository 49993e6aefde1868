/**
 The active-PR guard (src/lanes/patch.ts:83-98): a patch never starts, and never ends, on an
 issue with a created or open row, so an open pull request is never displaced from its row.
 */
module ActivePr {
  import opened Wrappers
  import opened PrBranches
  import opened Lanes
  import opened Parking

  predicate Active(r: Row) {
    r.status in {Created, Open}
  }

  ghost predicate Guarded(cfg: Config, s: State) {
    Attended(cfg, s) && (s.job.Patching? ==> !HasActivePr(s.rows, s.job.issue))
  }

  // Outside the worker rows are closed or cancelled, never made active.
  lemma OutsideNeverActivates(cfg: Config, s: State, e: Event)
    requires !FromWorker(e)
    ensures var after := Step(cfg, s, e).rows;
            |after| == |s.rows| && forall i :: 0 <= i < |s.rows| ==>
              after[i].task == s.rows[i].task && (Active(after[i]) ==> Active(s.rows[i]))
  {
  }

  lemma StepKeepsGuarded(cfg: Config, s: State, e: Event)
    requires Guarded(cfg, s)
    ensures Guarded(cfg, Step(cfg, s, e))
  {
    StepKeepsAttended(cfg, s, e);
    if !FromWorker(e) {
      OutsideMovesStatus(cfg, s, e);
      OutsideNeverActivates(cfg, s, e);
    }
  }

  lemma {:induction false} RunKeepsGuarded(cfg: Config, s: State, es: seq<Event>)
    requires Guarded(cfg, s)
    ensures Guarded(cfg, Run(cfg, s, es))
    decreases |es|
  {
    if es != [] {
      StepKeepsGuarded(cfg, s, es[0]);
      RunKeepsGuarded(cfg, Step(cfg, s, es[0]), es[1..]);
    }
  }

  ghost predicate KeepsActivePrs(cfg: Config, rows: Rows, after: Rows) {
    |rows| <= |after| && forall i :: 0 <= i < |rows| && cfg.IsIssue(rows[i].task) && Active(rows[i]) ==>
        after[i].pr == rows[i].pr
  }

  lemma RecordKeepsActivePrs(cfg: Config, rows: Rows, task: nat, branch: string, pr: Option<nat>, status: RowStatus)
    requires UniqueKeys(rows)
    requires var at := RecordedAt(rows, task, branch);
             at < |rows| && cfg.IsIssue(rows[at].task) && Active(rows[at]) ==> rows[at].pr == pr
    ensures KeepsActivePrs(cfg, rows, Recorded(rows, task, branch, pr, status))
  {
    RecordWritesOneRow(rows, task, branch, pr, status);
  }

  lemma PatchKeepsActivePrs(cfg: Config, s: State, result: PatchResult)
    requires Guarded(cfg, s)
    ensures KeepsActivePrs(cfg, s.rows, PatchEndsStep(cfg, s, result).rows)
  {
    if s.job.Patching? {
      var issue, branch := s.job.issue, s.job.branch;
      RecordWritesOneRow(s.rows, issue, branch, None, Dirty);
      match result {
        case PrOpened(pr) => RecordKeepsActivePrs(cfg, s.rows, issue, branch, Some(pr), Open);
        case WorktreeDirty => RecordKeepsActivePrs(cfg, s.rows, issue, branch, None, Dirty);
        case NothingCommitted => RecordKeepsActivePrs(cfg, s.rows, issue, branch, None, NoChanges);
        case Blocked => RecordKeepsActivePrs(cfg, s.rows, issue, branch, None, GuardrailBlocked);
        case PatchFailed => RecordKeepsActivePrs(cfg, s.rows, issue, branch, None, Errored);
      }
    }
  }

  lemma DialogKeepsActivePrs(cfg: Config, s: State, result: DialogResult)
    requires Guarded(cfg, s)
    ensures KeepsActivePrs(cfg, s.rows, DialogEndsStep(s, result).rows)
  {
    if s.job.Dialog? {
      var pr, row := s.job.pr, s.job.row;
      var r := s.rows[row];
      OwnKey(s.rows, row);
      RecordWritesOneRow(s.rows, pr, r.branch, Some(pr), Dirty);
      match result {
        case DialogDirty => RecordKeepsActivePrs(cfg, s.rows, pr, r.branch, Some(pr), Dirty);
        case DialogNeedsHuman => RecordKeepsActivePrs(cfg, s.rows, r.task, r.branch, Some(pr), NeedsHuman);
        case DialogBlocked => RecordKeepsActivePrs(cfg, s.rows, r.task, r.branch, Some(pr), GuardrailBlocked);
        case Pushed(_) =>
          var bumped := Bumped(s.rows, row);
          assert UniqueKeys(bumped);
          OwnKey(bumped, row);
          RecordKeepsActivePrs(cfg, bumped, r.task, r.branch, Some(pr), Open);
        case DialogFailed =>
      }
    }
  }

  // In every reachable state and for whatever happens next, patch_multi included: an active row
  // of an issue keeps its PR number, and no patch is under way on an issue that has one.
  lemma ActivePrTheorem(cfg: Config, es: seq<Event>, e: Event)
    ensures var s := Run(cfg, EMPTY, es);
            && KeepsActivePrs(cfg, s.rows, Step(cfg, s, e).rows)
            && (s.job.Patching? ==> !HasActivePr(s.rows, s.job.issue))
  {
    RunKeepsGuarded(cfg, EMPTY, es);
    var s := Run(cfg, EMPTY, es);
    match e {
      case PatchEnds(result) => PatchKeepsActivePrs(cfg, s, result);
      case DialogEnds(result) => DialogKeepsActivePrs(cfg, s, result);
      case _ => if FromWorker(e) { OthersWritePulls(cfg, s, e); } else { OutsideMovesStatus(cfg, s, e); }
    }
  }
}
