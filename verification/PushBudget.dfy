/**
 The budgets of a pull request (src/lanes/pr-dialog.ts:88-108, 354-364, 669-699): a row's
 iteration counter is the number of pushes made through it and stays within the limit, and
 one PR number is served by at most two rows.
 */
module PushBudget {
  import opened Wrappers
  import opened PrBranches
  import opened Lanes

  function Uses(log: seq<Use>, row: nat): nat {
    if log == [] then 0
    else Uses(log[..|log| - 1], row) + if log[|log| - 1].row == row then 1 else 0
  }

  function UsesOfPr(log: seq<Use>, pr: nat): nat {
    if log == [] then 0
    else UsesOfPr(log[..|log| - 1], pr) + if log[|log| - 1].pr == pr then 1 else 0
  }

  // A PR is served by the row it was opened through and by the row of its own task.
  ghost predicate Serves(s: State, row: nat, pr: nat) {
    row < |s.rows| && pr in s.origin && (row == s.origin[pr] || s.rows[row].task == pr)
  }

  ghost predicate RowFits(cfg: Config, s: State, i: nat)
    requires i < |s.rows|
  {
    var r := s.rows[i];
    && (r.pr.Some? ==> Serves(s, i, r.pr.value))
    && (!cfg.IsIssue(r.task) ==>
          && r.task in s.origin && s.origin[r.task] < |s.rows|
          && r.branch == s.rows[s.origin[r.task]].branch)
    && r.iterations == Uses(s.pushes, i) <= cfg.maxIterations
    && r.resolutions == Uses(s.attempts, i) <= cfg.maxAttempts
  }

  ghost predicate OriginFits(cfg: Config, s: State, pr: nat)
    requires pr in s.origin
  {
    !cfg.IsIssue(pr) && s.origin[pr] < |s.rows| && cfg.IsIssue(s.rows[s.origin[pr]].task)
  }

  ghost predicate LogFits(s: State, log: seq<Use>) {
    forall k :: 0 <= k < |log| ==> Serves(s, log[k].row, log[k].pr)
  }

  ghost predicate JobFits(cfg: Config, s: State) {
    match s.job
    case Patching(issue, _) => cfg.IsIssue(issue)
    case Reading(pr, row, seen) =>
      Serves(s, row, pr) && s.rows[row].iterations < cfg.maxIterations && seen == s.rows[row].resolutions
    case Dialog(pr, row, seen) =>
      Serves(s, row, pr) && s.rows[row].iterations < cfg.maxIterations && seen == s.rows[row].resolutions
    case Merging(pr, row, seen, tried) => Serves(s, row, pr) && (tried || seen == s.rows[row].resolutions)
    case _ => true
  }

  ghost predicate Budgeted(cfg: Config, s: State) {
    && UniqueKeys(s.rows)
    && (forall i :: 0 <= i < |s.rows| ==> RowFits(cfg, s, i))
    && (forall pr :: pr in s.origin ==> OriginFits(cfg, s, pr))
    && LogFits(s, s.pushes) && LogFits(s, s.attempts)
    && JobFits(cfg, s)
  }

  lemma {:induction false} UnusedRow(s: State, log: seq<Use>, row: nat)
    requires LogFits(s, log) && row >= |s.rows|
    ensures Uses(log, row) == 0
  {
    if log != [] {
      UnusedRow(s, log[..|log| - 1], row);
      assert Serves(s, log[|log| - 1].row, log[|log| - 1].pr);
    }
  }

  lemma UsesGrow(log: seq<Use>, u: Use, row: nat)
    ensures Uses(log + [u], row) == Uses(log, row) + if u.row == row then 1 else 0
  {
    assert (log + [u])[..|log|] == log;
  }

  // ------------------------------------------------------------ preservation

  // Events that move statuses only.
  lemma StatusMovesKeepBudget(cfg: Config, s: State, after: State)
    requires Budgeted(cfg, s)
    requires OnlyStatusMoves(s.rows, after.rows)
    requires after.origin == s.origin && after.pushes == s.pushes && after.attempts == s.attempts
    requires JobFits(cfg, after)
    ensures Budgeted(cfg, after)
  {
    forall i | 0 <= i < |after.rows|
      ensures RowFits(cfg, after, i)
    {
      assert RowFits(cfg, s, i);
    }
    forall pr | pr in after.origin
      ensures OriginFits(cfg, after, pr)
    {
      assert OriginFits(cfg, s, pr);
    }
    KeepsServing(s, after);
  }

  // Rows keep their owner, and origins are only added.
  lemma KeepsServing(s: State, after: State)
    requires LogFits(s, s.pushes) && LogFits(s, s.attempts)
    requires |s.rows| <= |after.rows|
    requires forall i :: 0 <= i < |s.rows| ==> after.rows[i].task == s.rows[i].task
    requires forall pr :: pr in s.origin ==> pr in after.origin && after.origin[pr] == s.origin[pr]
    ensures LogFits(after, s.pushes) && LogFits(after, s.attempts)
  {
    forall k | 0 <= k < |s.pushes|
      ensures Serves(after, s.pushes[k].row, s.pushes[k].pr)
    {
      assert Serves(s, s.pushes[k].row, s.pushes[k].pr);
    }
    forall k | 0 <= k < |s.attempts|
      ensures Serves(after, s.attempts[k].row, s.attempts[k].pr)
    {
      assert Serves(s, s.attempts[k].row, s.attempts[k].pr);
    }
  }

  // What a record may write: the key is an issue's, or the PR's own with the branch it was
  // opened on; a PR number goes to a row that serves it, which a fresh one makes.
  ghost predicate MayRecord(cfg: Config, s: State, after: State, at: nat, task: nat, branch: string, pr: Option<nat>) {
    && (after.origin == s.origin
        || (pr.Some? && FreshPr(cfg, s, pr.value) && cfg.IsIssue(task) && after.origin == s.origin[pr.value := at]))
    && (!cfg.IsIssue(task) ==> task in s.origin && s.origin[task] < |s.rows| && branch == s.rows[s.origin[task]].branch)
    && (pr.Some? ==> Serves(after, at, pr.value))
  }

  lemma WrittenRowFits(cfg: Config, s: State, after: State, at: nat, task: nat, branch: string, pr: Option<nat>,
      status: RowStatus, i: nat)
    requires Budgeted(cfg, s)
    requires WritesOneRow(s.rows, after.rows, at, task, branch, pr, status)
    requires after.pushes == s.pushes && after.attempts == s.attempts
    requires MayRecord(cfg, s, after, at, task, branch, pr)
    requires i < |after.rows|
    ensures RowFits(cfg, after, i)
  {
    if i < |s.rows| {
      assert RowFits(cfg, s, i);
    } else {
      UnusedRow(s, s.pushes, i);
      UnusedRow(s, s.attempts, i);
    }
    var owner := after.rows[i].task;
    if !cfg.IsIssue(owner) {
      assert OriginFits(cfg, s, owner);
    }
  }

  lemma WriteKeepsBudget(cfg: Config, s: State, after: State, at: nat, task: nat, branch: string, pr: Option<nat>,
      status: RowStatus)
    requires Budgeted(cfg, s)
    requires WritesOneRow(s.rows, after.rows, at, task, branch, pr, status)
    requires after.pushes == s.pushes && after.attempts == s.attempts
    requires MayRecord(cfg, s, after, at, task, branch, pr)
    requires JobFits(cfg, after)
    ensures Budgeted(cfg, after)
  {
    forall i | 0 <= i < |after.rows|
      ensures RowFits(cfg, after, i)
    {
      WrittenRowFits(cfg, s, after, at, task, branch, pr, status, i);
    }
    forall p | p in after.origin
      ensures OriginFits(cfg, after, p)
    {
      assert p in s.origin ==> OriginFits(cfg, s, p);
    }
    KeepsServing(s, after);
  }

  lemma RecordKeepsBudget(cfg: Config, s: State, after: State, task: nat, branch: string, pr: Option<nat>,
      status: RowStatus)
    requires Budgeted(cfg, s)
    requires after.rows == Recorded(s.rows, task, branch, pr, status)
    requires after.pushes == s.pushes && after.attempts == s.attempts
    requires MayRecord(cfg, s, after, RecordedAt(s.rows, task, branch), task, branch, pr)
    requires JobFits(cfg, after)
    ensures Budgeted(cfg, after)
  {
    RecordWritesOneRow(s.rows, task, branch, pr, status);
    WriteKeepsBudget(cfg, s, after, RecordedAt(s.rows, task, branch), task, branch, pr, status);
  }

  lemma PatchEndKeepsBudget(cfg: Config, s: State, result: PatchResult)
    requires Budgeted(cfg, s)
    ensures Budgeted(cfg, PatchEndsStep(cfg, s, result))
  {
    if s.job.Patching? {
      var issue, branch := s.job.issue, s.job.branch;
      var after := PatchEndsStep(cfg, s, result);
      match result {
        case PrOpened(pr) =>
          if FreshPr(cfg, s, pr) {
            RecordWritesOneRow(s.rows, issue, branch, Some(pr), Open);
            RecordKeepsBudget(cfg, s, after, issue, branch, Some(pr), Open);
          }
        case WorktreeDirty => RecordKeepsBudget(cfg, s, after, issue, branch, None, Dirty);
        case NothingCommitted => RecordKeepsBudget(cfg, s, after, issue, branch, None, NoChanges);
        case Blocked => RecordKeepsBudget(cfg, s, after, issue, branch, None, GuardrailBlocked);
        case PatchFailed => RecordKeepsBudget(cfg, s, after, issue, branch, None, Errored);
      }
    }
  }

  // One counted use of the row in hand.
  lemma UsedRowFits(cfg: Config, s: State, after: State, row: nat, pr: nat, i: nat)
    requires i < |s.rows| == |after.rows| && RowFits(cfg, s, i) && row < |s.rows|
    requires after.origin == s.origin
    requires forall j :: 0 <= j < |s.rows| ==>
                           && after.rows[j].task == s.rows[j].task
                           && after.rows[j].branch == s.rows[j].branch && after.rows[j].pr == s.rows[j].pr
    requires || (&& s.rows[row].iterations < cfg.maxIterations
                 && after.rows == Bumped(s.rows, row)
                 && after.pushes == s.pushes + [Use(row, pr)] && after.attempts == s.attempts)
             || (&& s.rows[row].resolutions < cfg.maxAttempts
                 && after.rows == BumpedResolutions(s.rows, row)
                 && after.pushes == s.pushes && after.attempts == s.attempts + [Use(row, pr)])
    ensures RowFits(cfg, after, i)
  {
    UsesGrow(s.pushes, Use(row, pr), i);
    UsesGrow(s.attempts, Use(row, pr), i);
  }

  lemma UseKeepsBudget(cfg: Config, s: State, after: State, row: nat, pr: nat)
    requires Budgeted(cfg, s) && Serves(s, row, pr)
    requires after.origin == s.origin
    requires || (&& s.rows[row].iterations < cfg.maxIterations
                 && after.rows == Bumped(s.rows, row)
                 && after.pushes == s.pushes + [Use(row, pr)] && after.attempts == s.attempts)
             || (&& s.rows[row].resolutions < cfg.maxAttempts
                 && after.rows == BumpedResolutions(s.rows, row)
                 && after.pushes == s.pushes && after.attempts == s.attempts + [Use(row, pr)])
    requires JobFits(cfg, after)
    ensures Budgeted(cfg, after)
  {
    forall i | 0 <= i < |after.rows|
      ensures RowFits(cfg, after, i)
    {
      UsedRowFits(cfg, s, after, row, pr, i);
    }
    forall p | p in after.origin
      ensures OriginFits(cfg, after, p)
    {
      assert OriginFits(cfg, s, p);
    }
    KeepsServing(s, after);
    UseIsLogged(s, after, row, pr);
  }

  lemma UseIsLogged(s: State, after: State, row: nat, pr: nat)
    requires Serves(after, row, pr)
    requires LogFits(after, s.pushes) && LogFits(after, s.attempts)
    requires after.pushes == s.pushes || after.pushes == s.pushes + [Use(row, pr)]
    requires after.attempts == s.attempts || after.attempts == s.attempts + [Use(row, pr)]
    ensures LogFits(after, after.pushes) && LogFits(after, after.attempts)
  {
  }

  lemma DialogEndKeepsBudget(cfg: Config, s: State, result: DialogResult)
    requires Budgeted(cfg, s)
    ensures Budgeted(cfg, DialogEndsStep(s, result))
  {
    if s.job.Dialog? {
      var pr, row := s.job.pr, s.job.row;
      var r := s.rows[row];
      var after := DialogEndsStep(s, result);
      assert RowFits(cfg, s, row) && OriginFits(cfg, s, pr);
      OwnKey(s.rows, row);
      match result {
        case DialogDirty =>
          RecordWritesOneRow(s.rows, pr, r.branch, Some(pr), Dirty);
          RecordKeepsBudget(cfg, s, after, pr, r.branch, Some(pr), Dirty);
        case DialogNeedsHuman =>
          RecordWritesOneRow(s.rows, r.task, r.branch, Some(pr), NeedsHuman);
          RecordKeepsBudget(cfg, s, after, r.task, r.branch, Some(pr), NeedsHuman);
        case DialogBlocked =>
          RecordWritesOneRow(s.rows, r.task, r.branch, Some(pr), GuardrailBlocked);
          RecordKeepsBudget(cfg, s, after, r.task, r.branch, Some(pr), GuardrailBlocked);
        case Pushed(thenMerge) =>
          var mid := s.(rows := Bumped(s.rows, row), pushes := s.pushes + [Use(row, pr)], job := Idle);
          UseKeepsBudget(cfg, s, mid, row, pr);
          OwnKey(mid.rows, row);
          RecordWritesOneRow(mid.rows, r.task, r.branch, Some(pr), Open);
          assert RowFits(cfg, mid, row);
          RecordKeepsBudget(cfg, mid, after, r.task, r.branch, Some(pr), Open);
        case DialogFailed =>
          StatusMovesKeepBudget(cfg, s, after);
      }
    }
  }

  lemma ResolveKeepsBudget(cfg: Config, s: State, engaged: bool)
    requires Budgeted(cfg, s)
    ensures Budgeted(cfg, ResolveStep(cfg, s, engaged))
  {
    if s.job.Merging? {
      var after := ResolveStep(cfg, s, engaged);
      if s.job.tried || s.job.seen >= cfg.maxAttempts || !engaged {
        StatusMovesKeepBudget(cfg, s, after);
      } else {
        UseKeepsBudget(cfg, s, after, s.job.row, s.job.pr);
      }
    }
  }

  lemma TakeIssueKeepsBudget(cfg: Config, s: State, issue: nat, open: bool, labelled: bool, on: Enabled)
    requires Budgeted(cfg, s)
    ensures Budgeted(cfg, TakeIssueStep(cfg, s, issue, open, labelled, on))
  {
    StatusMovesKeepBudget(cfg, s, TakeIssueStep(cfg, s, issue, open, labelled, on));
  }

  lemma TakePullKeepsBudget(cfg: Config, s: State, pr: nat, open: bool, on: Enabled)
    requires Budgeted(cfg, s)
    ensures Budgeted(cfg, TakePullStep(cfg, s, pr, open, on))
  {
    match NewestByPr(s.rows, pr) {
      case None =>
      case Some(row) =>
        assert RowFits(cfg, s, row);
        if !open {
          ClosingKeepsBudget(cfg, s, row);
        } else {
          StatusMovesKeepBudget(cfg, s, TakePullStep(cfg, s, pr, open, on));
        }
    }
  }

  lemma ClosingKeepsBudget(cfg: Config, s: State, row: nat)
    requires Budgeted(cfg, s)
    ensures Budgeted(cfg, s.(rows := ClosedRow(s.rows, row)))
  {
    StatusMovesKeepBudget(cfg, s, s.(rows := ClosedRow(s.rows, row)));
  }

  lemma MoveKeepsBudget(cfg: Config, s: State, e: Event)
    requires Budgeted(cfg, s)
    requires e.AnalyzeEnds? || e.TriageEnds? || e.MergeEnds? || e.FeedbackRead? || e.Boot?
    ensures Budgeted(cfg, Step(cfg, s, e))
  {
    StatusMovesKeepBudget(cfg, s, Step(cfg, s, e));
  }

  lemma OutsideKeepsBudget(cfg: Config, s: State, e: Event)
    requires Budgeted(cfg, s) && !FromWorker(e)
    ensures Budgeted(cfg, Step(cfg, s, e))
  {
    OutsideMovesStatus(cfg, s, e);
    var after := Step(cfg, s, e);
    assert s.job.Reading? || s.job.Dialog? || s.job.Merging? ==>
           after.rows[s.job.row] == s.rows[s.job.row].(status := after.rows[s.job.row].status);
    StatusMovesKeepBudget(cfg, s, after);
  }

  lemma StepKeepsBudget(cfg: Config, s: State, e: Event)
    requires Budgeted(cfg, s)
    ensures Budgeted(cfg, Step(cfg, s, e))
  {
    match e {
      case PatchEnds(result) => PatchEndKeepsBudget(cfg, s, result);
      case DialogEnds(result) => DialogEndKeepsBudget(cfg, s, result);
      case ResolveConflicts(engaged) => ResolveKeepsBudget(cfg, s, engaged);
      case TakeIssue(issue, open, labelled, on) => TakeIssueKeepsBudget(cfg, s, issue, open, labelled, on);
      case TakePull(pr, open, on) => TakePullKeepsBudget(cfg, s, pr, open, on);
      case _ => if FromWorker(e) { MoveKeepsBudget(cfg, s, e); } else { OutsideKeepsBudget(cfg, s, e); }
    }
  }

  lemma {:induction false} RunKeepsBudget(cfg: Config, s: State, es: seq<Event>)
    requires Budgeted(cfg, s)
    ensures Budgeted(cfg, Run(cfg, s, es))
    decreases |es|
  {
    if es != [] {
      StepKeepsBudget(cfg, s, es[0]);
      RunKeepsBudget(cfg, Step(cfg, s, es[0]), es[1..]);
    }
  }

  // ------------------------------------------------------------- the theorems

  // The row of the PR's own task, if a dirty round has made one; any row otherwise.
  ghost function OwnRow(s: State, pr: nat): nat {
    match NewestOf(s.rows, pr) case Some(i) => i case None => 0
  }

  lemma AtMostTwoRows(cfg: Config, s: State, row: nat, pr: nat)
    requires Budgeted(cfg, s) && Serves(s, row, pr)
    ensures row == s.origin[pr] || row == OwnRow(s, pr)
  {
    if s.rows[row].task == pr {
      assert OriginFits(cfg, s, pr);
      assert RowFits(cfg, s, row) && RowFits(cfg, s, OwnRow(s, pr));
    }
  }

  lemma {:induction false} TwoRowsBound(log: seq<Use>, pr: nat, a: nat, b: nat)
    requires forall k :: 0 <= k < |log| && log[k].pr == pr ==> log[k].row == a || log[k].row == b
    ensures UsesOfPr(log, pr) <= Uses(log, a) + Uses(log, b)
  {
    if log != [] {
      TwoRowsBound(log[..|log| - 1], pr, a, b);
    }
  }

  // In every run, patch_multi included: each counter is exactly what it counts and keeps its
  // limit, and a PR gets at most twice the limit of either.
  lemma BudgetTheorem(cfg: Config, es: seq<Event>, pr: nat)
    ensures var s := Run(cfg, EMPTY, es);
            && (forall i :: 0 <= i < |s.rows| ==>
                  && s.rows[i].iterations == Uses(s.pushes, i) && s.rows[i].iterations <= cfg.maxIterations
                  && s.rows[i].resolutions == Uses(s.attempts, i) && s.rows[i].resolutions <= cfg.maxAttempts)
            && UsesOfPr(s.pushes, pr) <= 2 * cfg.maxIterations
            && UsesOfPr(s.attempts, pr) <= 2 * cfg.maxAttempts
  {
    RunKeepsBudget(cfg, EMPTY, es);
    var s := Run(cfg, EMPTY, es);
    forall i | 0 <= i < |s.rows|
      ensures s.rows[i].iterations == Uses(s.pushes, i) && s.rows[i].iterations <= cfg.maxIterations
      ensures s.rows[i].resolutions == Uses(s.attempts, i) && s.rows[i].resolutions <= cfg.maxAttempts
    {
      assert RowFits(cfg, s, i);
    }
    PrBound(cfg, s, s.pushes, pr, cfg.maxIterations);
    PrBound(cfg, s, s.attempts, pr, cfg.maxAttempts);
  }

  lemma PrBound(cfg: Config, s: State, log: seq<Use>, pr: nat, limit: nat)
    requires Budgeted(cfg, s) && LogFits(s, log)
    requires forall i :: 0 <= i < |s.rows| ==> Uses(log, i) <= limit
    ensures UsesOfPr(log, pr) <= 2 * limit
  {
    if exists k :: 0 <= k < |log| && log[k].pr == pr {
      var k :| 0 <= k < |log| && log[k].pr == pr;
      assert Serves(s, log[k].row, pr) && OriginFits(cfg, s, pr);
      forall k | 0 <= k < |log| && log[k].pr == pr
        ensures log[k].row == s.origin[pr] || log[k].row == OwnRow(s, pr)
      {
        AtMostTwoRows(cfg, s, log[k].row, pr);
      }
      TwoRowsBound(log, pr, s.origin[pr], OwnRow(s, pr));
      if OwnRow(s, pr) >= |s.rows| { UnusedRow(s, log, OwnRow(s, pr)); }
    } else {
      NoneOfPr(log, pr);
    }
  }

  lemma {:induction false} NoneOfPr(log: seq<Use>, pr: nat)
    requires forall k :: 0 <= k < |log| ==> log[k].pr != pr
    ensures UsesOfPr(log, pr) == 0
  {
    if log != [] { NoneOfPr(log[..|log| - 1], pr); }
  }
}
