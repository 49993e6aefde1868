/**
 Patch rounds: whatever is interleaved, the branch rows of an issue are the closed rounds
 1..k and at most one live row, named round k+1 (src/lanes/patch.ts:70-98).
 */
module Rounds {
  import opened Wrappers
  import opened Numerals
  import opened PrBranches
  import opened Lanes

  // ------------------------------------------------------------ round names

  lemma RoundNamesDiffer(cfg: Config, issue: nat, a: nat, b: nat)
    requires 1 <= a && 1 <= b
    ensures RoundName(cfg, issue, a) == RoundName(cfg, issue, b) <==> a == b
  {
    var base := cfg.Base(issue);
    assert a > 1 ==> RoundName(cfg, issue, a)[|base| + 1..] == Digits(a);
    assert b > 1 ==> RoundName(cfg, issue, b)[|base| + 1..] == Digits(b);
    if a > 1 && b > 1 && Digits(a) == Digits(b) {
      DigitsInjective(a, b);
    }
  }

  // --------------------------------------------------------------- counting

  lemma {:induction false} CountSame(rows: Rows, after: Rows, task: nat, n: nat)
    requires n <= |rows| && n <= |after|
    requires forall i :: 0 <= i < n ==> rows[i].task == after[i].task
    ensures CountOf(rows, task, n) == CountOf(after, task, n)
  {
    if n > 0 { CountSame(rows, after, task, n - 1); }
  }

  lemma {:induction false} CountGrows(rows: Rows, task: nat, i: nat, j: nat)
    requires i <= j <= |rows|
    ensures CountOf(rows, task, i) <= CountOf(rows, task, j)
    ensures i < j && rows[i].task == task ==> CountOf(rows, task, i) < CountOf(rows, task, j)
    ensures (forall k :: i <= k < j ==> rows[k].task != task) ==> CountOf(rows, task, i) == CountOf(rows, task, j)
  {
    if i < j { CountGrows(rows, task, i, j - 1); }
  }

  // -------------------------------------------------------------- invariant

  // The i-th row of an issue bears the name of round i, and only its last row can be live.
  ghost predicate Named(cfg: Config, rows: Rows) {
    forall i :: 0 <= i < |rows| ==> NamedAt(cfg, rows, i)
  }

  ghost predicate NamedAt(cfg: Config, rows: Rows, i: nat)
    requires i < |rows|
  {
    var t := rows[i].task;
    cfg.IsIssue(t) ==> rows[i].branch == RoundName(cfg, t, CountOf(rows, t, i) + 1)
  }

  ghost predicate OnlyLastLive(cfg: Config, rows: Rows) {
    forall i, j :: 0 <= i < j < |rows| && rows[i].task == rows[j].task && cfg.IsIssue(rows[i].task)
                   ==> rows[i].status == Closed
  }

  ghost predicate IsLastOfTask(rows: Rows, row: nat) {
    row < |rows| && forall j :: row < j < |rows| ==> rows[j].task != rows[row].task
  }

  ghost predicate AllClosed(rows: Rows, task: nat) {
    forall i :: 0 <= i < |rows| && rows[i].task == task ==> rows[i].status == Closed
  }

  // The name a patch in flight will record under: the last round's, or the next one's.
  ghost predicate Targets(cfg: Config, rows: Rows, issue: nat, branch: string) {
    var n := CountOf(rows, issue, |rows|);
    || (n >= 1 && branch == RoundName(cfg, issue, n))
    || (branch == RoundName(cfg, issue, n + 1) && AllClosed(rows, issue))
  }

  ghost predicate JobFits(cfg: Config, rows: Rows, job: Job) {
    match job
    case Patching(issue, branch) => cfg.IsIssue(issue) && Targets(cfg, rows, issue, branch)
    case Reading(pr, row, _) => !cfg.IsIssue(pr) && HoldsLast(cfg, rows, row)
    case Dialog(pr, row, _) => !cfg.IsIssue(pr) && HoldsLast(cfg, rows, row)
    case Merging(pr, row, _, _) => !cfg.IsIssue(pr) && HoldsLast(cfg, rows, row)
    case _ => true
  }

  ghost predicate HoldsLast(cfg: Config, rows: Rows, row: nat) {
    row < |rows| && (cfg.IsIssue(rows[row].task) ==> IsLastOfTask(rows, row))
  }

  ghost predicate InRounds(cfg: Config, s: State) {
    Named(cfg, s.rows) && OnlyLastLive(cfg, s.rows) && JobFits(cfg, s.rows, s.job)
  }

  // ------------------------------------------------------------ preservation

  lemma StatusMovesKeepRounds(cfg: Config, rows: Rows, after: Rows, job: Job)
    requires Named(cfg, rows) && OnlyLastLive(cfg, rows) && JobFits(cfg, rows, job)
    requires OnlyStatusMoves(rows, after)
    ensures Named(cfg, after) && OnlyLastLive(cfg, after) && JobFits(cfg, after, job)
  {
    forall i | 0 <= i < |after|
      ensures NamedAt(cfg, after, i)
    {
      EarlierNameStays(cfg, rows, after, i);
    }
    if job.Patching? {
      CountSame(rows, after, job.issue, |rows|);
    }
  }

  // Two rows of an issue with one name are one row.
  lemma SameRound(cfg: Config, rows: Rows, i: nat, j: nat)
    requires Named(cfg, rows)
    requires i < |rows| && j < |rows| && rows[i].task == rows[j].task && cfg.IsIssue(rows[i].task)
    ensures rows[i].branch == rows[j].branch <==> i == j
  {
    var t := rows[i].task;
    assert NamedAt(cfg, rows, i) && NamedAt(cfg, rows, j);
    RoundNamesDiffer(cfg, t, CountOf(rows, t, i) + 1, CountOf(rows, t, j) + 1);
    CountGrows(rows, t, Min(i, j), Max(i, j));
  }

  // Overwriting the last row of an issue, or any row of another task.
  lemma OverwriteKeepsRounds(cfg: Config, rows: Rows, at: nat, pr: Option<nat>, status: RowStatus, iterations: nat)
    requires Named(cfg, rows) && OnlyLastLive(cfg, rows)
    requires at < |rows| && (cfg.IsIssue(rows[at].task) ==> IsLastOfTask(rows, at))
    ensures var after := rows[at := rows[at].(pr := pr, status := status, iterations := iterations)];
            Named(cfg, after) && OnlyLastLive(cfg, after)
  {
    var after := rows[at := rows[at].(pr := pr, status := status, iterations := iterations)];
    forall i | 0 <= i < |after|
      ensures NamedAt(cfg, after, i)
    {
      EarlierNameStays(cfg, rows, after, i);
    }
  }

  lemma AppendKeepsNames(cfg: Config, rows: Rows, r: Row)
    requires Named(cfg, rows)
    requires NamedAt(cfg, rows + [r], |rows|)
    ensures Named(cfg, rows + [r])
  {
    forall i | 0 <= i < |rows|
      ensures NamedAt(cfg, rows + [r], i)
    {
      EarlierNameStays(cfg, rows, rows + [r], i);
    }
  }

  lemma NewNameFits(cfg: Config, rows: Rows, r: Row)
    requires cfg.IsIssue(r.task) ==> r.branch == RoundName(cfg, r.task, CountOf(rows, r.task, |rows|) + 1)
    ensures NamedAt(cfg, rows + [r], |rows|)
  {
    var after := rows + [r];
    CountSame(rows, after, r.task, |rows|);
    assert after[|rows|] == r;
    assert CountOf(after, r.task, |rows|) == CountOf(rows, r.task, |rows|);
  }

  lemma EarlierNameStays(cfg: Config, rows: Rows, after: Rows, i: nat)
    requires Named(cfg, rows)
    requires i < |rows| <= |after|
    requires forall j :: 0 <= j < |rows| ==> after[j].task == rows[j].task && after[j].branch == rows[j].branch
    ensures NamedAt(cfg, after, i)
  {
    assert NamedAt(cfg, rows, i);
    CountSame(rows, after, rows[i].task, i);
  }

  lemma AppendKeepsRounds(cfg: Config, rows: Rows, r: Row)
    requires Named(cfg, rows) && OnlyLastLive(cfg, rows)
    requires cfg.IsIssue(r.task) ==>
               AllClosed(rows, r.task) && r.branch == RoundName(cfg, r.task, CountOf(rows, r.task, |rows|) + 1)
    ensures Named(cfg, rows + [r]) && OnlyLastLive(cfg, rows + [r])
  {
    NewNameFits(cfg, rows, r);
    AppendKeepsNames(cfg, rows, r);
    forall i, j | 0 <= i < j < |rows| + 1 && (rows + [r])[i].task == (rows + [r])[j].task && cfg.IsIssue(rows[i].task)
      ensures rows[i].status == Closed
    {
    }
  }

  // If the branch of a patch has a row, it is the issue's last.
  lemma TargetIsLast(cfg: Config, rows: Rows, issue: nat, branch: string, k: nat)
    requires Named(cfg, rows) && OnlyLastLive(cfg, rows)
    requires cfg.IsIssue(issue) && Targets(cfg, rows, issue, branch)
    requires k < |rows| && rows[k].task == issue && rows[k].branch == branch
    ensures IsLastOfTask(rows, k)
  {
    var n, m := CountOf(rows, issue, |rows|), CountOf(rows, issue, k) + 1;
    assert NamedAt(cfg, rows, k);
    CountGrows(rows, issue, k, |rows|);
    RoundNamesDiffer(cfg, issue, m, n + 1);
    RoundNamesDiffer(cfg, issue, m, Max(n, 1));
    assert m == n;
    forall j | k < j < |rows|
      ensures rows[j].task != issue
    {
      CountGrows(rows, issue, k, j);
      CountGrows(rows, issue, j, |rows|);
    }
  }

  // A patch outcome lands on the issue's last row or opens the next round.
  lemma PatchRecordKeepsRounds(cfg: Config, rows: Rows, issue: nat, branch: string, pr: Option<nat>, status: RowStatus)
    requires Named(cfg, rows) && OnlyLastLive(cfg, rows)
    requires cfg.IsIssue(issue) && Targets(cfg, rows, issue, branch)
    ensures var after := Recorded(rows, issue, branch, pr, status);
            Named(cfg, after) && OnlyLastLive(cfg, after)
  {
    match FindKey(rows, issue, branch) {
      case Some(k) =>
        TargetIsLast(cfg, rows, issue, branch, k);
        OverwriteKeepsRounds(cfg, rows, k, pr, status, rows[k].iterations);
      case None =>
        match NewestOf(rows, issue) {
          case Some(last) =>
            CountGrows(rows, issue, last + 1, |rows|);
            assert NamedAt(cfg, rows, last);
          case None =>
            CountGrows(rows, issue, 0, |rows|);
        }
        AppendKeepsRounds(cfg, rows, Row(issue, branch, pr, status, 0, 0));
    }
  }

  // A dialog outcome lands on the row the dialog read, or on a row of the PR's own task.
  lemma DialogRecordKeepsRounds(cfg: Config, rows: Rows, row: nat, task: nat, pr: Option<nat>, status: RowStatus)
    requires Named(cfg, rows) && OnlyLastLive(cfg, rows)
    requires row < |rows| && (cfg.IsIssue(rows[row].task) ==> IsLastOfTask(rows, row))
    requires task == rows[row].task || !cfg.IsIssue(task)
    ensures var after := Recorded(rows, task, rows[row].branch, pr, status);
            Named(cfg, after) && OnlyLastLive(cfg, after)
    ensures var after := Recorded(rows, task, rows[row].branch, pr, status);
            row < |after| && after[row].task == rows[row].task
            && (cfg.IsIssue(rows[row].task) ==> IsLastOfTask(after, row))
  {
    match FindKey(rows, task, rows[row].branch) {
      case Some(k) =>
        if cfg.IsIssue(task) { SameRound(cfg, rows, k, row); }
        OverwriteKeepsRounds(cfg, rows, k, pr, status, rows[k].iterations);
      case None =>
        AppendKeepsRounds(cfg, rows, Row(task, rows[row].branch, pr, status, 0, 0));
    }
  }

  // With every row but the last closed, the closed count is the row count or one less.
  lemma {:induction false} ClosedCount(rows: Rows, task: nat, n: nat)
    requires n <= |rows|
    requires forall i, j :: 0 <= i < j < n && rows[i].task == rows[j].task == task ==> rows[i].status == Closed
    ensures (forall i :: 0 <= i < n && rows[i].task == task ==> rows[i].status == Closed)
            ==> ClosedOf(rows, task, n) == CountOf(rows, task, n)
    ensures (exists i :: 0 <= i < n && rows[i].task == task && rows[i].status != Closed)
            ==> ClosedOf(rows, task, n) + 1 == CountOf(rows, task, n)
  {
    if n > 0 { ClosedCount(rows, task, n - 1); }
  }

  predicate SinglePatchLane(e: Event) {
    e.TakeIssue? ==> !e.on.patchMulti
  }

  lemma TakingKeepsRounds(cfg: Config, s: State, e: Event)
    requires InRounds(cfg, s) && SinglePatchLane(e)
    requires e.TakeIssue? || e.TakePull?
    ensures InRounds(cfg, Step(cfg, s, e))
  {
    match e {
      case TakeIssue(issue, open, labelled, on) =>
        if cfg.IsIssue(issue) {
          ClosedCount(s.rows, issue, |s.rows|);
          CountGrows(s.rows, issue, 0, |s.rows|);
        }
      case TakePull(pr, open, on) =>
        match NewestByPr(s.rows, pr) {
          case None =>
          case Some(row) =>
            ClosingMovesStatus(s.rows, row);
            if s.job == Idle && !open {
              StatusMovesKeepRounds(cfg, s.rows, ClosedRow(s.rows, row), s.job);
            }
        }
    }
  }

  lemma PatchEndKeepsRounds(cfg: Config, s: State, result: PatchResult)
    requires InRounds(cfg, s)
    ensures InRounds(cfg, PatchEndsStep(cfg, s, result))
  {
    if s.job.Patching? {
      var issue, branch := s.job.issue, s.job.branch;
      match result {
        case PrOpened(pr) => PatchRecordKeepsRounds(cfg, s.rows, issue, branch, Some(pr), Open);
        case WorktreeDirty => PatchRecordKeepsRounds(cfg, s.rows, issue, branch, None, Dirty);
        case NothingCommitted => PatchRecordKeepsRounds(cfg, s.rows, issue, branch, None, NoChanges);
        case Blocked => PatchRecordKeepsRounds(cfg, s.rows, issue, branch, None, GuardrailBlocked);
        case PatchFailed => PatchRecordKeepsRounds(cfg, s.rows, issue, branch, None, Errored);
      }
    }
  }

  lemma DialogEndKeepsRounds(cfg: Config, s: State, result: DialogResult)
    requires InRounds(cfg, s)
    ensures InRounds(cfg, DialogEndsStep(s, result))
  {
    if s.job.Dialog? {
      var pr, row := s.job.pr, s.job.row;
      var task := s.rows[row].task;
      match result {
        case DialogDirty => DialogRecordKeepsRounds(cfg, s.rows, row, pr, Some(pr), Dirty);
        case DialogNeedsHuman => DialogRecordKeepsRounds(cfg, s.rows, row, task, Some(pr), NeedsHuman);
        case DialogBlocked => DialogRecordKeepsRounds(cfg, s.rows, row, task, Some(pr), GuardrailBlocked);
        case Pushed(_) =>
          OverwriteKeepsRounds(cfg, s.rows, row, s.rows[row].pr, s.rows[row].status, s.rows[row].iterations + 1);
          DialogRecordKeepsRounds(cfg, Bumped(s.rows, row), row, task, Some(pr), Open);
        case DialogFailed =>
      }
    }
  }

  lemma ResolveKeepsRounds(cfg: Config, s: State, engaged: bool)
    requires InRounds(cfg, s)
    ensures InRounds(cfg, ResolveStep(cfg, s, engaged))
  {
    if s.job.Merging? {
      var after := BumpedResolutions(s.rows, s.job.row);
      forall i | 0 <= i < |after|
        ensures NamedAt(cfg, after, i)
      {
        EarlierNameStays(cfg, s.rows, after, i);
      }
    }
  }

  lemma EndingKeepsRounds(cfg: Config, s: State, e: Event)
    requires InRounds(cfg, s)
    requires FromWorker(e) && !e.TakeIssue? && !e.TakePull?
    ensures InRounds(cfg, Step(cfg, s, e))
  {
    match e {
      case PatchEnds(result) => PatchEndKeepsRounds(cfg, s, result);
      case DialogEnds(result) => DialogEndKeepsRounds(cfg, s, result);
      case ResolveConflicts(engaged) => ResolveKeepsRounds(cfg, s, engaged);
      case MergeEnds(merged) =>
        if s.job.Merging? {
          ClosingMovesStatus(s.rows, s.job.row);
          StatusMovesKeepRounds(cfg, s.rows, ClosedRow(s.rows, s.job.row), s.job);
        }
      case _ =>
    }
  }

  lemma OutsideKeepsRounds(cfg: Config, s: State, e: Event)
    requires InRounds(cfg, s) && !FromWorker(e)
    ensures InRounds(cfg, Step(cfg, s, e))
  {
    var after := Step(cfg, s, e);
    OutsideMovesStatus(cfg, s, e);
    StatusMovesKeepRounds(cfg, s.rows, after.rows, s.job);
  }

  lemma {:induction false} RunKeepsRounds(cfg: Config, s: State, es: seq<Event>)
    requires InRounds(cfg, s)
    requires forall i :: 0 <= i < |es| ==> SinglePatchLane(es[i])
    ensures InRounds(cfg, Run(cfg, s, es))
    decreases |es|
  {
    if es != [] {
      if FromWorker(es[0]) {
        if es[0].TakeIssue? || es[0].TakePull? {
          TakingKeepsRounds(cfg, s, es[0]);
        } else {
          EndingKeepsRounds(cfg, s, es[0]);
        }
      } else {
        OutsideKeepsRounds(cfg, s, es[0]);
      }
      RunKeepsRounds(cfg, Step(cfg, s, es[0]), es[1..]);
    }
  }

  // -------------------------------------------------------------- the theorem

  function ClosedNames(rows: Rows, issue: nat): set<string> {
    set i | 0 <= i < |rows| && rows[i].task == issue && rows[i].status == Closed :: rows[i].branch
  }

  // The rows of one issue are the closed rounds 1..k and at most a live round k+1.
  ghost predicate ExactRounds(cfg: Config, rows: Rows, issue: nat) {
    var k := ClosedOf(rows, issue, |rows|);
    && ClosedNames(rows, issue) == (set r | 1 <= r <= k :: RoundName(cfg, issue, r))
    && (forall i :: 0 <= i < |rows| && rows[i].task == issue && rows[i].status != Closed ==>
          rows[i].branch == RoundName(cfg, issue, k + 1))
    && (forall i, j :: 0 <= i < j < |rows| && rows[i].task == rows[j].task == issue ==>
          rows[i].branch != rows[j].branch && (rows[i].status == Closed || rows[j].status == Closed))
  }

  lemma {:induction false} RowOfRound(rows: Rows, task: nat, n: nat, r: nat) returns (i: nat)
    requires n <= |rows|
    requires 1 <= r <= CountOf(rows, task, n)
    ensures i < n && rows[i].task == task && CountOf(rows, task, i) + 1 == r
  {
    if CountOf(rows, task, n - 1) >= r {
      i := RowOfRound(rows, task, n - 1, r);
    } else {
      i := n - 1;
    }
  }

  // A closed row is among the first k rows of its issue, a live one is the row after them.
  lemma RoundOfRow(cfg: Config, rows: Rows, i: nat)
    requires Named(cfg, rows) && OnlyLastLive(cfg, rows)
    requires i < |rows| && cfg.IsIssue(rows[i].task)
    ensures var issue, round := rows[i].task, CountOf(rows, rows[i].task, i) + 1;
            && rows[i].branch == RoundName(cfg, issue, round)
            && (rows[i].status == Closed ==> round <= ClosedOf(rows, issue, |rows|))
            && (rows[i].status != Closed ==> round == ClosedOf(rows, issue, |rows|) + 1)
  {
    assert NamedAt(cfg, rows, i);
    ClosedPrefix(rows, rows[i].task, i);
    ClosedOneMore(rows, rows[i].task, i);
    ClosedGrows(rows, rows[i].task, i + 1, |rows|);
  }

  lemma ClosedOneMore(rows: Rows, task: nat, i: nat)
    requires i < |rows| && rows[i].task == task
    ensures ClosedOf(rows, task, i + 1) == ClosedOf(rows, task, i) + if rows[i].status == Closed then 1 else 0
  {
  }

  lemma {:induction false} ClosedPrefix(rows: Rows, task: nat, n: nat)
    requires n <= |rows|
    requires forall j :: 0 <= j < n && rows[j].task == task ==> rows[j].status == Closed
    ensures ClosedOf(rows, task, n) == CountOf(rows, task, n)
  {
    if n > 0 { ClosedPrefix(rows, task, n - 1); }
  }

  lemma {:induction false} ClosedGrows(rows: Rows, task: nat, i: nat, j: nat)
    requires i <= j <= |rows|
    ensures ClosedOf(rows, task, i) <= ClosedOf(rows, task, j)
    ensures (forall k :: i <= k < j ==> rows[k].task != task) ==> ClosedOf(rows, task, i) == ClosedOf(rows, task, j)
  {
    if i < j { ClosedGrows(rows, task, i, j - 1); }
  }

  lemma ClosedRowOfRound(cfg: Config, rows: Rows, issue: nat, r: nat) returns (i: nat)
    requires Named(cfg, rows) && OnlyLastLive(cfg, rows) && cfg.IsIssue(issue)
    requires 1 <= r <= ClosedOf(rows, issue, |rows|)
    ensures i < |rows| && rows[i].task == issue && rows[i].status == Closed
            && rows[i].branch == RoundName(cfg, issue, r)
  {
    ClosedCount(rows, issue, |rows|);
    i := RowOfRound(rows, issue, |rows|, r);
    RoundOfRow(cfg, rows, i);
  }

  lemma ClosedNamesAreRounds(cfg: Config, rows: Rows, issue: nat)
    requires Named(cfg, rows) && OnlyLastLive(cfg, rows) && cfg.IsIssue(issue)
    ensures ClosedNames(rows, issue) == set r | 1 <= r <= ClosedOf(rows, issue, |rows|) :: RoundName(cfg, issue, r)
  {
    var names := set r | 1 <= r <= ClosedOf(rows, issue, |rows|) :: RoundName(cfg, issue, r);
    forall name | name in names
      ensures name in ClosedNames(rows, issue)
    {
      var r: nat :| 1 <= r <= ClosedOf(rows, issue, |rows|) && name == RoundName(cfg, issue, r);
      var i := ClosedRowOfRound(cfg, rows, issue, r);
    }
    forall name | name in ClosedNames(rows, issue)
      ensures name in names
    {
      var i :| 0 <= i < |rows| && rows[i].task == issue && rows[i].status == Closed && rows[i].branch == name;
      RoundOfRow(cfg, rows, i);
    }
  }

  lemma RoundsAreExact(cfg: Config, rows: Rows, issue: nat)
    requires Named(cfg, rows) && OnlyLastLive(cfg, rows) && cfg.IsIssue(issue)
    ensures ExactRounds(cfg, rows, issue)
  {
    ClosedNamesAreRounds(cfg, rows, issue);
    forall i | 0 <= i < |rows| && rows[i].task == issue && rows[i].status != Closed
      ensures rows[i].branch == RoundName(cfg, issue, ClosedOf(rows, issue, |rows|) + 1)
    {
      RoundOfRow(cfg, rows, i);
    }
    forall i, j | 0 <= i < j < |rows| && rows[i].task == rows[j].task == issue
      ensures rows[i].branch != rows[j].branch
    {
      SameRound(cfg, rows, i, j);
    }
  }

  // In every run that starts with no rows and never uses patch_multi.
  lemma RoundsTheorem(cfg: Config, es: seq<Event>, issue: nat)
    requires cfg.IsIssue(issue)
    requires forall i :: 0 <= i < |es| ==> SinglePatchLane(es[i])
    ensures ExactRounds(cfg, Run(cfg, EMPTY, es).rows, issue)
  {
    RunKeepsRounds(cfg, EMPTY, es);
    RoundsAreExact(cfg, Run(cfg, EMPTY, es).rows, issue);
  }
}
