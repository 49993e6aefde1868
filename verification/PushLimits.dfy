/**
 The exact budgets of a pull request (src/lanes/pr-dialog.ts:72-108, 250-364, 665-700): which
 totals its two rows can reach.  The row of its own task takes over with the dialog that makes
 it, and that dialog does not push, so the first row has always one push left.
 */
module PushLimits {
  import opened Wrappers
  import opened PrBranches
  import opened Lanes
  import opened PushBudget
  import LaneRuns

  // The uses of a row for one PR; an issue's row can serve several, one after the other.
  function UsesAt(log: seq<Use>, row: nat, pr: nat): nat {
    if log == [] then 0
    else UsesAt(log[..|log| - 1], row, pr) + if log[|log| - 1] == Use(row, pr) then 1 else 0
  }

  lemma UsesAtGrow(log: seq<Use>, u: Use, row: nat, pr: nat)
    ensures UsesAt(log + [u], row, pr) == UsesAt(log, row, pr) + if u == Use(row, pr) then 1 else 0
  {
    assert (log + [u])[..|log|] == log;
  }

  lemma {:induction false} UsesAtIsLess(log: seq<Use>, row: nat, pr: nat)
    ensures UsesAt(log, row, pr) <= Uses(log, row)
  {
    if log != [] { UsesAtIsLess(log[..|log| - 1], row, pr); }
  }

  // ----------------------------------------------------------------- invariant

  // Row j is the row of its PR's own task: it carries the PR, came after the row the PR was
  // opened through, and has taken over from it before the last push.
  ghost predicate OwnAt(cfg: Config, s: State, j: nat)
    requires j < |s.rows|
  {
    var pr := s.rows[j].task;
    && s.rows[j].pr == Some(pr) && pr in s.origin && s.origin[pr] < j
    && UsesAt(s.pushes, s.origin[pr], pr) < cfg.maxIterations
    && ((s.job.Reading? || s.job.Dialog?) && s.job.pr == pr ==> s.job.row == j)
  }

  ghost predicate OwnFits(cfg: Config, s: State) {
    forall j :: 0 <= j < |s.rows| && !cfg.IsIssue(s.rows[j].task) ==> OwnAt(cfg, s, j)
  }

  // Steps that keep owners, PR numbers and pushes, and start no dialog.
  lemma QuietKeepsOwn(cfg: Config, s: State, after: State)
    requires OwnFits(cfg, s) && |after.rows| == |s.rows|
    requires forall i :: 0 <= i < |s.rows| ==> after.rows[i].task == s.rows[i].task && after.rows[i].pr == s.rows[i].pr
    requires after.origin == s.origin && after.pushes == s.pushes
    requires after.job.Reading? || after.job.Dialog? ==>
               (s.job.Reading? || s.job.Dialog?) && after.job.pr == s.job.pr && after.job.row == s.job.row
    ensures OwnFits(cfg, after)
  {
    forall j | 0 <= j < |after.rows| && !cfg.IsIssue(after.rows[j].task)
      ensures OwnAt(cfg, after, j)
    {
      assert OwnAt(cfg, s, j);
    }
  }

  lemma TakePullKeepsOwn(cfg: Config, s: State, pr: nat, open: bool, on: Enabled)
    requires Budgeted(cfg, s) && OwnFits(cfg, s)
    ensures OwnFits(cfg, TakePullStep(cfg, s, pr, open, on))
  {
    var after := TakePullStep(cfg, s, pr, open, on);
    if !after.job.Reading? || s.job != Idle {
      QuietKeepsOwn(cfg, s, after);
    } else {
      var row := after.job.row;
      forall j | 0 <= j < |s.rows| && !cfg.IsIssue(s.rows[j].task)
        ensures OwnAt(cfg, after, j)
      {
        assert OwnAt(cfg, s, j) && RowFits(cfg, s, j) && RowFits(cfg, s, row);
      }
    }
  }

  lemma PatchKeepsOwn(cfg: Config, s: State, result: PatchResult)
    requires Budgeted(cfg, s) && OwnFits(cfg, s)
    ensures OwnFits(cfg, PatchEndsStep(cfg, s, result))
  {
    if s.job.Patching? {
      var after := PatchEndsStep(cfg, s, result);
      var issue, branch := s.job.issue, s.job.branch;
      var at := RecordedAt(s.rows, issue, branch);
      match result {
        case PrOpened(pr) => RecordWritesOneRow(s.rows, issue, branch, Some(pr), Open);
        case WorktreeDirty => RecordWritesOneRow(s.rows, issue, branch, None, Dirty);
        case NothingCommitted => RecordWritesOneRow(s.rows, issue, branch, None, NoChanges);
        case Blocked => RecordWritesOneRow(s.rows, issue, branch, None, GuardrailBlocked);
        case PatchFailed => RecordWritesOneRow(s.rows, issue, branch, None, Errored);
      }
      IssueRowKeepsOwn(cfg, s, after, at);
    }
  }

  // One row of an issue is written, and a PR may get its first row.
  lemma IssueRowKeepsOwn(cfg: Config, s: State, after: State, at: nat)
    requires OwnFits(cfg, s) && |s.rows| <= |after.rows| <= |s.rows| + 1
    requires forall i :: 0 <= i < |after.rows| && i != at ==> i < |s.rows| && after.rows[i] == s.rows[i]
    requires at < |after.rows| ==> cfg.IsIssue(after.rows[at].task)
    requires after.pushes == s.pushes && !after.job.Reading? && !after.job.Dialog?
    requires forall pr :: pr in s.origin ==> pr in after.origin && after.origin[pr] == s.origin[pr]
    ensures OwnFits(cfg, after)
  {
    forall j | 0 <= j < |after.rows| && !cfg.IsIssue(after.rows[j].task)
      ensures OwnAt(cfg, after, j)
    {
      assert OwnAt(cfg, s, j);
    }
  }

  // The dirty outcome makes the row of the PR's own task, or finds it.
  lemma DirtyKeepsOwn(cfg: Config, s: State)
    requires Budgeted(cfg, s) && OwnFits(cfg, s) && s.job.Dialog?
    ensures OwnFits(cfg, DialogEndsStep(s, DialogDirty))
  {
    var pr, row := s.job.pr, s.job.row;
    var after := DialogEndsStep(s, DialogDirty);
    RecordWritesOneRow(s.rows, pr, s.rows[row].branch, Some(pr), Dirty);
    assert OriginFits(cfg, s, pr) && RowFits(cfg, s, row);
    UsesAtIsLess(s.pushes, row, pr);
    forall j | 0 <= j < |after.rows| && !cfg.IsIssue(after.rows[j].task)
      ensures OwnAt(cfg, after, j)
    {
      if j < |s.rows| {
        assert OwnAt(cfg, s, j);
      } else {
        NoOwnRowYet(cfg, s, pr, row);
      }
    }
  }

  lemma NoOwnRowYet(cfg: Config, s: State, pr: nat, row: nat)
    requires Budgeted(cfg, s) && Serves(s, row, pr) && !cfg.IsIssue(pr)
    requires FindKey(s.rows, pr, s.rows[row].branch) == None
    ensures row == s.origin[pr]
  {
    assert RowFits(cfg, s, row);
  }

  // The other outcomes write the row in hand, and a push is counted on it.
  lemma SettledKeepsOwn(cfg: Config, s: State, after: State, row: nat, pr: nat)
    requires Budgeted(cfg, s) && OwnFits(cfg, s) && s.job.Dialog? && s.job.pr == pr && s.job.row == row
    requires |after.rows| == |s.rows|
    requires forall i :: 0 <= i < |s.rows| ==> after.rows[i].task == s.rows[i].task
    requires forall i :: 0 <= i < |s.rows| && i != row ==> after.rows[i].pr == s.rows[i].pr
    requires after.rows[row].pr == Some(pr) && after.origin == s.origin
    requires after.pushes == s.pushes || after.pushes == s.pushes + [Use(row, pr)]
    requires !after.job.Reading? && !after.job.Dialog?
    ensures OwnFits(cfg, after)
  {
    forall j | 0 <= j < |after.rows| && !cfg.IsIssue(after.rows[j].task)
      ensures OwnAt(cfg, after, j)
    {
      var owner := s.rows[j].task;
      assert OwnAt(cfg, s, j) && OriginFits(cfg, s, pr);
      UsesAtGrow(s.pushes, Use(row, pr), s.origin[owner], owner);
    }
  }

  lemma DialogKeepsOwn(cfg: Config, s: State, result: DialogResult)
    requires Budgeted(cfg, s) && OwnFits(cfg, s)
    ensures OwnFits(cfg, DialogEndsStep(s, result))
  {
    if s.job.Dialog? {
      var pr, row := s.job.pr, s.job.row;
      var r := s.rows[row];
      var after := DialogEndsStep(s, result);
      OwnKey(s.rows, row);
      match result {
        case DialogDirty => DirtyKeepsOwn(cfg, s);
        case DialogNeedsHuman =>
          RecordWritesOneRow(s.rows, r.task, r.branch, Some(pr), NeedsHuman);
          SettledKeepsOwn(cfg, s, after, row, pr);
        case DialogBlocked =>
          RecordWritesOneRow(s.rows, r.task, r.branch, Some(pr), GuardrailBlocked);
          SettledKeepsOwn(cfg, s, after, row, pr);
        case Pushed(_) =>
          var bumped := Bumped(s.rows, row);
          assert UniqueKeys(bumped);
          OwnKey(bumped, row);
          RecordWritesOneRow(bumped, r.task, r.branch, Some(pr), Open);
          SettledKeepsOwn(cfg, s, after, row, pr);
        case DialogFailed => QuietKeepsOwn(cfg, s, after);
      }
    }
  }

  lemma StepKeepsOwn(cfg: Config, s: State, e: Event)
    requires Budgeted(cfg, s) && OwnFits(cfg, s)
    ensures OwnFits(cfg, Step(cfg, s, e))
  {
    match e {
      case TakePull(pr, open, on) => TakePullKeepsOwn(cfg, s, pr, open, on);
      case PatchEnds(result) => PatchKeepsOwn(cfg, s, result);
      case DialogEnds(result) => DialogKeepsOwn(cfg, s, result);
      case _ => if FromWorker(e) { OthersKeepOwn(cfg, s, e); } else { OutsideKeepsOwn(cfg, s, e); }
    }
  }

  lemma OutsideKeepsOwn(cfg: Config, s: State, e: Event)
    requires OwnFits(cfg, s) && !FromWorker(e)
    ensures OwnFits(cfg, Step(cfg, s, e))
  {
    OutsideMovesStatus(cfg, s, e);
    QuietKeepsOwn(cfg, s, Step(cfg, s, e));
  }

  lemma OthersKeepOwn(cfg: Config, s: State, e: Event)
    requires OwnFits(cfg, s) && FromWorker(e) && !e.TakePull? && !e.PatchEnds? && !e.DialogEnds?
    ensures OwnFits(cfg, Step(cfg, s, e))
  {
    QuietKeepsOwn(cfg, s, Step(cfg, s, e));
  }

  lemma {:induction false} RunKeepsOwn(cfg: Config, s: State, es: seq<Event>)
    requires Budgeted(cfg, s) && OwnFits(cfg, s)
    ensures Budgeted(cfg, Run(cfg, s, es)) && OwnFits(cfg, Run(cfg, s, es))
    decreases |es|
  {
    if es != [] {
      StepKeepsBudget(cfg, s, es[0]);
      StepKeepsOwn(cfg, s, es[0]);
      RunKeepsOwn(cfg, Step(cfg, s, es[0]), es[1..]);
    }
  }

  // -------------------------------------------------------------- the bounds

  function PushLimit(cfg: Config): nat {
    if cfg.maxIterations == 0 then 0 else 2 * cfg.maxIterations - 1
  }

  function ResolutionLimit(cfg: Config): nat {
    if cfg.maxIterations == 0 then 0 else 2 * cfg.maxAttempts
  }

  lemma {:induction false} TwoRows(log: seq<Use>, pr: nat, a: nat, b: nat)
    requires forall k :: 0 <= k < |log| && log[k].pr == pr ==> log[k].row == a || log[k].row == b
    ensures UsesOfPr(log, pr) <= UsesAt(log, a, pr) + Uses(log, b)
  {
    if log != [] { TwoRows(log[..|log| - 1], pr, a, b); }
  }

  lemma PushBound(cfg: Config, es: seq<Event>, pr: nat)
    ensures UsesOfPr(Run(cfg, EMPTY, es).pushes, pr) <= PushLimit(cfg)
  {
    RunKeepsOwn(cfg, EMPTY, es);
    var s := Run(cfg, EMPTY, es);
    if exists k :: 0 <= k < |s.pushes| && s.pushes[k].pr == pr {
      var k :| 0 <= k < |s.pushes| && s.pushes[k].pr == pr;
      assert Serves(s, s.pushes[k].row, pr) && OriginFits(cfg, s, pr);
      ServedPushes(cfg, s, pr);
    } else {
      NoneOfPr(s.pushes, pr);
    }
  }

  lemma ServedPushes(cfg: Config, s: State, pr: nat)
    requires Budgeted(cfg, s) && OwnFits(cfg, s) && pr in s.origin
    ensures UsesOfPr(s.pushes, pr) <= PushLimit(cfg)
  {
    assert OriginFits(cfg, s, pr);
    var first := s.origin[pr];
    assert RowFits(cfg, s, first);
    UsesAtIsLess(s.pushes, first, pr);
    forall k | 0 <= k < |s.pushes| && s.pushes[k].pr == pr
      ensures s.pushes[k].row == first || s.pushes[k].row == OwnRow(s, pr)
    {
      AtMostTwoRows(cfg, s, s.pushes[k].row, pr);
    }
    if NewestOf(s.rows, pr) == None {
      forall k | 0 <= k < |s.pushes| && s.pushes[k].pr == pr
        ensures s.pushes[k].row == first
      {
        assert Serves(s, s.pushes[k].row, pr);
      }
      TwoRows(s.pushes, pr, |s.rows|, first);
      UnusedRow(s, s.pushes, |s.rows|);
      UsesAtIsLess(s.pushes, |s.rows|, pr);
    } else {
      var own := OwnRow(s, pr);
      assert OwnAt(cfg, s, own) && RowFits(cfg, s, own);
      TwoRows(s.pushes, pr, first, own);
    }
  }

  // Without iterations no pull request is ever taken.
  lemma {:induction false} NothingTaken(cfg: Config, s: State, es: seq<Event>)
    requires cfg.maxIterations == 0 && !s.job.Reading? && !s.job.Dialog? && !s.job.Merging?
    ensures Run(cfg, s, es).attempts == s.attempts
    decreases |es|
  {
    if es != [] { NothingTaken(cfg, Step(cfg, s, es[0]), es[1..]); }
  }

  lemma ResolutionBound(cfg: Config, es: seq<Event>, pr: nat)
    ensures UsesOfPr(Run(cfg, EMPTY, es).attempts, pr) <= ResolutionLimit(cfg)
  {
    BudgetTheorem(cfg, es, pr);
    if cfg.maxIterations == 0 { NothingTaken(cfg, EMPTY, es); }
  }

  // ------------------------------------------------------------- reaching them

  // The worker is free, and `row` is the one that a dialog of the PR would read.
  ghost predicate Ready(cfg: Config, s: State, row: nat, pr: nat) {
    && s.job == Idle && !cfg.IsIssue(pr) && UniqueKeys(s.rows)
    && NewestByPr(s.rows, pr) == Some(row) && s.rows[row].status != Closed
  }

  lemma NewestKept(rows: Rows, after: Rows, pr: nat)
    requires |after| == |rows| && forall i :: 0 <= i < |rows| ==> after[i].pr == rows[i].pr
    ensures NewestByPr(after, pr) == NewestByPr(rows, pr)
  {
  }

  const PUSH := [FeedbackRead(true, false)] + [DialogEnds(Pushed(false))]
  const MERGE := [FeedbackRead(false, true)] + [ResolveConflicts(true)] + [MergeEnds(false)]
  const DIRTY := [FeedbackRead(true, false)] + [DialogEnds(DialogDirty)]

  lemma PushOnce(cfg: Config, s: State, row: nat, pr: nat)
    requires Ready(cfg, s, row, pr) && s.rows[row].iterations < cfg.maxIterations
    ensures var after := Run(cfg, s, [TakePull(pr, true, LaneRuns.ON)] + PUSH);
            && Ready(cfg, after, row, pr) && after.pushes == s.pushes + [Use(row, pr)]
            && after.rows == s.rows[row := s.rows[row].(iterations := s.rows[row].iterations + 1, status := Open)]
  {
    var take := TakePull(pr, true, LaneRuns.ON);
    var taken := Step(cfg, s, take);
    RunSplits(cfg, s, [take], PUSH);
    OneStep(cfg, s, take);
    RunSplits(cfg, taken, [FeedbackRead(true, false)], [DialogEnds(Pushed(false))]);
    OneStep(cfg, taken, FeedbackRead(true, false));
    var read := Step(cfg, taken, FeedbackRead(true, false));
    OneStep(cfg, read, DialogEnds(Pushed(false)));
    PushSettles(cfg, read, row, pr, s.rows[row].resolutions);
    NewestKept(s.rows, Step(cfg, read, DialogEnds(Pushed(false))).rows, pr);
  }

  lemma PushSettles(cfg: Config, s: State, row: nat, pr: nat, seen: nat)
    requires s.job == Dialog(pr, row, seen) && UniqueKeys(s.rows) && row < |s.rows| && s.rows[row].pr == Some(pr)
    ensures var after := Step(cfg, s, DialogEnds(Pushed(false)));
            && after.job == Idle && after.pushes == s.pushes + [Use(row, pr)] && UniqueKeys(after.rows)
            && after.rows == s.rows[row := s.rows[row].(iterations := s.rows[row].iterations + 1, status := Open)]
  {
    var bumped := Bumped(s.rows, row);
    assert UniqueKeys(bumped);
    OwnKey(bumped, row);
    RecordWritesOneRow(bumped, s.rows[row].task, s.rows[row].branch, Some(pr), Open);
  }

  lemma MergeOnce(cfg: Config, s: State, row: nat, pr: nat)
    requires Ready(cfg, s, row, pr) && s.rows[row].iterations < cfg.maxIterations
    requires s.rows[row].resolutions < cfg.maxAttempts
    ensures var after := Run(cfg, s, [TakePull(pr, true, LaneRuns.ON)] + MERGE);
            && Ready(cfg, after, row, pr) && after.attempts == s.attempts + [Use(row, pr)]
            && after.rows == s.rows[row := s.rows[row].(resolutions := s.rows[row].resolutions + 1)]
  {
    var take := TakePull(pr, true, LaneRuns.ON);
    var taken := Step(cfg, s, take);
    RunSplits(cfg, s, [take], MERGE);
    OneStep(cfg, s, take);
    RunOneMore(cfg, taken, [FeedbackRead(false, true)] + [ResolveConflicts(true)], MergeEnds(false));
    RunOneMore(cfg, taken, [FeedbackRead(false, true)], ResolveConflicts(true));
    OneStep(cfg, taken, FeedbackRead(false, true));
    var read := Step(cfg, taken, FeedbackRead(false, true));
    MergeSettles(cfg, read, row, pr, s.rows[row].resolutions);
    NewestKept(s.rows, Step(cfg, read, ResolveConflicts(true)).rows, pr);
  }

  lemma MergeSettles(cfg: Config, s: State, row: nat, pr: nat, seen: nat)
    requires s.job == Merging(pr, row, seen, false) && seen < cfg.maxAttempts && row < |s.rows| && UniqueKeys(s.rows)
    ensures var after := Step(cfg, Step(cfg, s, ResolveConflicts(true)), MergeEnds(false));
            && after.job == Idle && after.attempts == s.attempts + [Use(row, pr)] && UniqueKeys(after.rows)
            && after.rows == Step(cfg, s, ResolveConflicts(true)).rows
            && after.rows == s.rows[row := s.rows[row].(resolutions := s.rows[row].resolutions + 1)]
  {
  }

  // The dialog that reports a dirty worktree makes the PR's own row.
  lemma DirtyOnce(cfg: Config, s: State, row: nat, pr: nat)
    requires Ready(cfg, s, row, pr) && s.rows[row].iterations < cfg.maxIterations
    requires FindKey(s.rows, pr, s.rows[row].branch) == None
    ensures var after := Run(cfg, s, [TakePull(pr, true, LaneRuns.ON)] + DIRTY);
            && Ready(cfg, after, |s.rows|, pr) && after.pushes == s.pushes && after.attempts == s.attempts
            && after.rows == s.rows + [Row(pr, s.rows[row].branch, Some(pr), Dirty, 0, 0)]
  {
    var take := TakePull(pr, true, LaneRuns.ON);
    var taken := Step(cfg, s, take);
    RunSplits(cfg, s, [take], DIRTY);
    OneStep(cfg, s, take);
    RunSplits(cfg, taken, [FeedbackRead(true, false)], [DialogEnds(DialogDirty)]);
    OneStep(cfg, taken, FeedbackRead(true, false));
    OneStep(cfg, Step(cfg, taken, FeedbackRead(true, false)), DialogEnds(DialogDirty));
    RecordWritesOneRow(s.rows, pr, s.rows[row].branch, Some(pr), Dirty);
  }

  lemma OfPrGrow(log: seq<Use>, row: nat, pr: nat)
    ensures UsesOfPr(log + [Use(row, pr)], pr) == UsesOfPr(log, pr) + 1
  {
    assert (log + [Use(row, pr)])[..|log|] == log;
  }

  // The row as it is after n pushes or n merges, its key and counters so far kept.
  ghost predicate Advanced(was: Rows, rows: Rows, row: nat, pushes: nat, merges: nat) {
    && row < |rows| == |was|
    && rows[row].task == was[row].task && rows[row].branch == was[row].branch
    && rows[row].iterations == was[row].iterations + pushes
    && rows[row].resolutions == was[row].resolutions + merges
    && forall i :: 0 <= i < |rows| && i != row ==> rows[i] == was[i]
  }

  lemma {:induction false} ManyPushes(cfg: Config, s: State, row: nat, pr: nat, n: nat) returns (es: seq<Event>)
    requires Ready(cfg, s, row, pr) && s.rows[row].iterations + n <= cfg.maxIterations
    ensures var after := Run(cfg, s, es);
            && Ready(cfg, after, row, pr) && UsesOfPr(after.pushes, pr) == UsesOfPr(s.pushes, pr) + n
            && Advanced(s.rows, after.rows, row, n, 0)
  {
    if n == 0 {
      es := [];
    } else {
      es := ManyPushes(cfg, s, row, pr, n - 1);
      var mid := Run(cfg, s, es);
      PushOnce(cfg, mid, row, pr);
      OfPrGrow(mid.pushes, row, pr);
      RunSplits(cfg, s, es, [TakePull(pr, true, LaneRuns.ON)] + PUSH);
      es := es + ([TakePull(pr, true, LaneRuns.ON)] + PUSH);
    }
  }

  lemma {:induction false} ManyMerges(cfg: Config, s: State, row: nat, pr: nat, n: nat) returns (es: seq<Event>)
    requires Ready(cfg, s, row, pr) && s.rows[row].iterations < cfg.maxIterations
    requires s.rows[row].resolutions + n <= cfg.maxAttempts
    ensures var after := Run(cfg, s, es);
            && Ready(cfg, after, row, pr) && UsesOfPr(after.attempts, pr) == UsesOfPr(s.attempts, pr) + n
            && Advanced(s.rows, after.rows, row, 0, n)
  {
    if n == 0 {
      es := [];
    } else {
      es := ManyMerges(cfg, s, row, pr, n - 1);
      var mid := Run(cfg, s, es);
      MergeOnce(cfg, mid, row, pr);
      OfPrGrow(mid.attempts, row, pr);
      RunSplits(cfg, s, es, [TakePull(pr, true, LaneRuns.ON)] + MERGE);
      es := es + ([TakePull(pr, true, LaneRuns.ON)] + MERGE);
    }
  }

  lemma OpenedIsReady(cfg: Config, issue: nat, pr: nat)
    requires cfg.IsIssue(issue) && !cfg.IsIssue(pr)
    ensures Ready(cfg, LaneRuns.Opened(cfg, issue, pr), 0, pr)
  {
    assert LaneRuns.Opened(cfg, issue, pr).rows[..0] == [];
  }

  lemma MostPushes(cfg: Config, issue: nat, pr: nat) returns (es: seq<Event>)
    requires cfg.IsIssue(issue) && !cfg.IsIssue(pr)
    ensures UsesOfPr(Run(cfg, EMPTY, es).pushes, pr) == PushLimit(cfg)
  {
    if cfg.maxIterations == 0 {
      es := [];
    } else {
      var start := LaneRuns.Opened(cfg, issue, pr);
      var opening := LaneRuns.OpenedFromEmpty(cfg, issue, pr);
      OpenedIsReady(cfg, issue, pr);
      var first := ManyPushes(cfg, start, 0, pr, cfg.maxIterations - 1);
      var pushed := Run(cfg, start, first);
      DirtyOnce(cfg, pushed, 0, pr);
      var dirty := [TakePull(pr, true, LaneRuns.ON)] + DIRTY;
      var second := ManyPushes(cfg, Run(cfg, pushed, dirty), 1, pr, cfg.maxIterations);
      es := Chained(cfg, opening, first, dirty, second);
    }
  }

  lemma MostMerges(cfg: Config, issue: nat, pr: nat) returns (es: seq<Event>)
    requires cfg.IsIssue(issue) && !cfg.IsIssue(pr)
    ensures UsesOfPr(Run(cfg, EMPTY, es).attempts, pr) == ResolutionLimit(cfg)
  {
    if cfg.maxIterations == 0 {
      es := [];
    } else {
      var start := LaneRuns.Opened(cfg, issue, pr);
      var opening := LaneRuns.OpenedFromEmpty(cfg, issue, pr);
      OpenedIsReady(cfg, issue, pr);
      var first := ManyMerges(cfg, start, 0, pr, cfg.maxAttempts);
      var merged := Run(cfg, start, first);
      DirtyOnce(cfg, merged, 0, pr);
      var dirty := [TakePull(pr, true, LaneRuns.ON)] + DIRTY;
      var second := ManyMerges(cfg, Run(cfg, merged, dirty), 1, pr, cfg.maxAttempts);
      es := Chained(cfg, opening, first, dirty, second);
    }
  }

  lemma Chained(cfg: Config, a: seq<Event>, b: seq<Event>, c: seq<Event>, d: seq<Event>) returns (es: seq<Event>)
    ensures Run(cfg, EMPTY, es) == Run(cfg, Run(cfg, Run(cfg, Run(cfg, EMPTY, a), b), c), d)
  {
    es := a + b + c + d;
    RunSplits(cfg, EMPTY, a, b);
    RunSplits(cfg, EMPTY, a + b, c);
    RunSplits(cfg, EMPTY, a + b + c, d);
  }

  ghost predicate PushesWithin(cfg: Config, es: seq<Event>, pr: nat, n: nat) {
    UsesOfPr(Run(cfg, EMPTY, es).pushes, pr) <= n
  }

  ghost predicate MergesWithin(cfg: Config, es: seq<Event>, pr: nat, n: nat) {
    UsesOfPr(Run(cfg, EMPTY, es).attempts, pr) <= n
  }

  // The least bounds on what one PR gets in all runs: one push less than twice the limit, and
  // twice the limit of conflict resolutions; nothing at all without iterations.
  lemma LimitsIff(cfg: Config, issue: nat, pr: nat, n: nat)
    requires cfg.IsIssue(issue) && !cfg.IsIssue(pr)
    ensures (forall es: seq<Event> :: PushesWithin(cfg, es, pr, n)) <==> n >= PushLimit(cfg)
    ensures (forall es: seq<Event> :: MergesWithin(cfg, es, pr, n)) <==> n >= ResolutionLimit(cfg)
  {
    if n >= PushLimit(cfg) {
      forall es: seq<Event> ensures PushesWithin(cfg, es, pr, n) { PushBound(cfg, es, pr); }
    } else {
      var es := MostPushes(cfg, issue, pr);
      assert !PushesWithin(cfg, es, pr, n);
    }
    if n >= ResolutionLimit(cfg) {
      forall es: seq<Event> ensures MergesWithin(cfg, es, pr, n) { ResolutionBound(cfg, es, pr); }
    } else {
      var es := MostMerges(cfg, issue, pr);
      assert !MergesWithin(cfg, es, pr, n);
    }
  }
}
