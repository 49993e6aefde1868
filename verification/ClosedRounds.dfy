/**
 When a closed round is overwritten.  A worker result lands on the row it was started for
 without looking at it again (src/lanes/patch.ts:285-394, src/lanes/pr-dialog.ts:254-380), so a
 round that the poll closes while a patch or a dialog holds its row is reopened; every other
 closed round is closed for good.
 */
module ClosedRounds {
  import opened Wrappers
  import opened PrBranches
  import opened Lanes
  import opened Rounds

  // The worker is about to record on this row, or may be once it has read the feedback.
  predicate InHand(s: State, i: nat)
    requires i < |s.rows|
  {
    match s.job
    case Patching(issue, branch) => s.rows[i].task == issue && s.rows[i].branch == branch
    case Reading(_, row, _) => row == i
    case Dialog(_, row, _) => row == i
    case _ => false
  }

  // The closed row of an issue, with the PR number it was closed under.
  ghost predicate ClosedWith(s: State, i: nat, was: Row) {
    && i < |s.rows|
    && s.rows[i].status == Closed && !InHand(s, i)
    && s.rows[i] == was.(iterations := s.rows[i].iterations, resolutions := s.rows[i].resolutions)
  }

  // Recording under a name of another round, or for another task, misses the row.
  lemma RecordMisses(cfg: Config, rows: Rows, i: nat, task: nat, branch: string, pr: Option<nat>, status: RowStatus)
    requires i < |rows| && (rows[i].task != task || rows[i].branch != branch)
    ensures var after := Recorded(rows, task, branch, pr, status);
            i < |after| && after[i] == rows[i]
  {
  }

  // The next round's name is not a closed round's.
  lemma NextNameIsNew(cfg: Config, rows: Rows, i: nat)
    requires Named(cfg, rows) && OnlyLastLive(cfg, rows)
    requires i < |rows| && cfg.IsIssue(rows[i].task) && rows[i].status == Closed
    ensures rows[i].branch != RoundName(cfg, rows[i].task, ClosedOf(rows, rows[i].task, |rows|) + 1)
  {
    RoundOfRow(cfg, rows, i);
    var round, next := CountOf(rows, rows[i].task, i) + 1, ClosedOf(rows, rows[i].task, |rows|) + 1;
    RoundNamesDiffer(cfg, rows[i].task, round, next);
  }

  lemma TakingLeavesClosed(cfg: Config, s: State, e: Event, i: nat, was: Row)
    requires InRounds(cfg, s) && SinglePatchLane(e)
    requires e.TakeIssue? || e.TakePull?
    requires ClosedWith(s, i, was) && cfg.IsIssue(was.task)
    ensures ClosedWith(Step(cfg, s, e), i, was)
  {
    NextNameIsNew(cfg, s.rows, i);
  }

  lemma PatchLeavesClosed(cfg: Config, s: State, result: PatchResult, i: nat, was: Row)
    requires ClosedWith(s, i, was)
    ensures ClosedWith(PatchEndsStep(cfg, s, result), i, was)
  {
    if s.job.Patching? {
      var issue, branch := s.job.issue, s.job.branch;
      match result {
        case PrOpened(pr) => RecordMisses(cfg, s.rows, i, issue, branch, Some(pr), Open);
        case WorktreeDirty => RecordMisses(cfg, s.rows, i, issue, branch, None, Dirty);
        case NothingCommitted => RecordMisses(cfg, s.rows, i, issue, branch, None, NoChanges);
        case Blocked => RecordMisses(cfg, s.rows, i, issue, branch, None, GuardrailBlocked);
        case PatchFailed => RecordMisses(cfg, s.rows, i, issue, branch, None, Errored);
      }
    }
  }

  lemma DialogLeavesClosed(cfg: Config, s: State, result: DialogResult, i: nat, was: Row)
    requires InRounds(cfg, s) && ClosedWith(s, i, was) && cfg.IsIssue(was.task)
    ensures ClosedWith(DialogEndsStep(s, result), i, was)
  {
    if s.job.Dialog? {
      var pr, row := s.job.pr, s.job.row;
      var r := s.rows[row];
      if r.task == was.task { SameRound(cfg, s.rows, i, row); }
      match result {
        case DialogDirty => RecordMisses(cfg, s.rows, i, pr, r.branch, Some(pr), Dirty);
        case DialogNeedsHuman => RecordMisses(cfg, s.rows, i, r.task, r.branch, Some(pr), NeedsHuman);
        case DialogBlocked => RecordMisses(cfg, s.rows, i, r.task, r.branch, Some(pr), GuardrailBlocked);
        case Pushed(_) => RecordMisses(cfg, Bumped(s.rows, row), i, r.task, r.branch, Some(pr), Open);
        case DialogFailed =>
      }
    }
  }

  lemma StepLeavesClosed(cfg: Config, s: State, e: Event, i: nat, was: Row)
    requires InRounds(cfg, s) && SinglePatchLane(e)
    requires ClosedWith(s, i, was) && cfg.IsIssue(was.task)
    ensures ClosedWith(Step(cfg, s, e), i, was)
  {
    match e {
      case PatchEnds(result) => PatchLeavesClosed(cfg, s, result, i, was);
      case DialogEnds(result) => DialogLeavesClosed(cfg, s, result, i, was);
      case TakeIssue(_, _, _, _) => TakingLeavesClosed(cfg, s, e, i, was);
      case TakePull(_, _, _) => TakingLeavesClosed(cfg, s, e, i, was);
      case _ => if !FromWorker(e) { OutsideMovesStatus(cfg, s, e); }
    }
  }

  lemma {:induction false} RunLeavesClosed(cfg: Config, s: State, es: seq<Event>, i: nat, was: Row)
    requires InRounds(cfg, s) && ClosedWith(s, i, was) && cfg.IsIssue(was.task)
    requires forall k :: 0 <= k < |es| ==> SinglePatchLane(es[k])
    ensures ClosedWith(Run(cfg, s, es), i, was)
    decreases |es|
  {
    if es != [] {
      RunKeepsRounds(cfg, s, es[..1]);
      assert es[..1] == [es[0]] && [es[0]][1..] == [];
      assert Run(cfg, s, [es[0]]) == Run(cfg, Step(cfg, s, es[0]), []);
      StepLeavesClosed(cfg, s, es[0], i, was);
      RunLeavesClosed(cfg, Step(cfg, s, es[0]), es[1..], i, was);
    }
  }

  ghost predicate StaysClosed(cfg: Config, s: State, es: seq<Event>, i: nat)
    requires i < |s.rows|
  {
    var after := Run(cfg, s, es);
    (forall k :: 0 <= k < |es| ==> SinglePatchLane(es[k]))
    ==> i < |after.rows| && after.rows[i].status == Closed && after.rows[i].pr == s.rows[i].pr
  }

  // The result in flight comes, and is recorded on the closed row.
  lemma Reopening(cfg: Config, s: State, i: nat) returns (es: seq<Event>)
    requires InRounds(cfg, s)
    requires i < |s.rows| && cfg.IsIssue(s.rows[i].task) && s.rows[i].status == Closed && InHand(s, i)
    ensures !StaysClosed(cfg, s, es, i)
  {
    match FindKey(s.rows, s.rows[i].task, s.rows[i].branch) {
      case Some(k) => SameRound(cfg, s.rows, k, i);
      case None =>
    }
    if s.job.Patching? {
      es := [PatchEnds(PatchFailed)];
      OneStep(cfg, s, es[0]);
    } else if s.job.Dialog? {
      es := [DialogEnds(DialogBlocked)];
      OneStep(cfg, s, es[0]);
    } else {
      es := [FeedbackRead(true, false)] + [DialogEnds(DialogBlocked)];
      OneStep(cfg, s, FeedbackRead(true, false));
      RunOneMore(cfg, s, [FeedbackRead(true, false)], DialogEnds(DialogBlocked));
    }
  }

  // A closed round is never touched again, in any run, exactly when no result in flight is
  // about to be recorded on it.
  lemma ClosedForGoodIff(cfg: Config, s: State, i: nat)
    requires InRounds(cfg, s)
    requires i < |s.rows| && cfg.IsIssue(s.rows[i].task) && s.rows[i].status == Closed
    ensures !InHand(s, i) <==> forall es: seq<Event> :: StaysClosed(cfg, s, es, i)
  {
    if !InHand(s, i) {
      forall es: seq<Event>
        ensures StaysClosed(cfg, s, es, i)
      {
        if forall k :: 0 <= k < |es| ==> SinglePatchLane(es[k]) {
          RunLeavesClosed(cfg, s, es, i, s.rows[i]);
        }
      }
    } else {
      var es := Reopening(cfg, s, i);
    }
  }

  predicate IsClosedIn(s: State, i: nat) {
    i < |s.rows| && s.rows[i].status == Closed
  }

  // Nothing outside the worker closes a row without a PR number that the poll has not listed.
  lemma {:induction false} OutsideClosesListed(cfg: Config, s: State, es: seq<Event>, i: nat)
    requires i < |s.rows| && s.rows[i].status != Closed
    requires s.rows[i].pr == None && i !in s.poll
    requires forall k :: 0 <= k < |es| ==> !FromWorker(es[k])
    ensures var after := Run(cfg, s, es);
            i < |after.rows| && after.rows[i].status != Closed && after.rows[i].pr == None
    decreases |es|
  {
    if es != [] {
      OutsideMovesStatus(cfg, s, es[0]);
      OutsideClosesListed(cfg, Step(cfg, s, es[0]), es[1..], i);
    }
  }

  // While the worker awaits, its row can be closed under it exactly when it carries a PR
  // number or a poll in progress has it listed.
  lemma ClosableUnderwayIff(cfg: Config, s: State, i: nat)
    requires i < |s.rows| && s.rows[i].status != Closed
    ensures (exists es: seq<Event> ::
               (forall k :: 0 <= k < |es| ==> !FromWorker(es[k])) && IsClosedIn(Run(cfg, s, es), i))
            <==> s.rows[i].pr.Some? || i in s.poll
  {
    if i in s.poll {
      var es := [PollClose(i)];
      OneStep(cfg, s, PollClose(i));
      assert IsClosedIn(Run(cfg, s, es), i);
    } else if s.rows[i].pr.Some? {
      var es := [PollList({i}), PollClose(i)];
      var listed := Step(cfg, s, PollList({i}));
      assert i in listed.poll;
      assert es[1..] == [PollClose(i)];
      OneStep(cfg, listed, PollClose(i));
      assert Run(cfg, s, es) == Run(cfg, listed, [PollClose(i)]);
      assert IsClosedIn(Run(cfg, s, es), i);
    } else {
      forall es: seq<Event> | forall k :: 0 <= k < |es| ==> !FromWorker(es[k])
        ensures !IsClosedIn(Run(cfg, s, es), i)
      {
        OutsideClosesListed(cfg, s, es, i);
      }
    }
  }
}
