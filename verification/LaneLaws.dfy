/**
 What each event of the lane machine promises, in the words of the code (src/scheduler/worker.ts:
 66-150, 247-318, src/lanes/patch.ts:70-98, 240-394, src/lanes/pr-dialog.ts:72-165, 250-364,
 665-830, src/scheduler/reconcile.ts:56-129, 198-205), and that whatever the worker does to an
 issue began with a look at it while it was open.
 */
module LaneLaws {
  import opened Wrappers
  import opened Numerals
  import opened PrBranches
  import opened Lanes

  // ------------------------------------------------------------------- issues

  ghost predicate IsNewest(rows: Rows, task: nat, n: nat) {
    n < |rows| && rows[n].task == task && forall j :: n < j < |rows| ==> rows[j].task != task
  }

  // Its newest row waits for a human.
  ghost predicate Waits(rows: Rows, issue: nat) {
    exists n: nat :: IsNewest(rows, issue, n) && rows[n].status in {GuardrailBlocked, NoChanges, NeedsHuman}
  }

  ghost predicate HasOpenRow(rows: Rows, issue: nat) {
    exists i :: 0 <= i < |rows| && rows[i].task == issue && (rows[i].status == Created || rows[i].status == Open)
  }

  ghost function ClosedRows(rows: Rows, issue: nat): set<nat> {
    set i: nat | i < |rows| && rows[i].task == issue && rows[i].status == Closed
  }

  lemma {:induction false} ClosedAreCounted(rows: Rows, issue: nat, n: nat)
    requires n <= |rows|
    ensures ClosedOf(rows, issue, n) == |ClosedRows(rows[..n], issue)|
  {
    if n > 0 {
      ClosedAreCounted(rows, issue, n - 1);
      var before, now := ClosedRows(rows[..n - 1], issue), ClosedRows(rows[..n], issue);
      assert now == before + if rows[n - 1].task == issue && rows[n - 1].status == Closed then {n - 1} else {};
    } else {
      assert ClosedRows(rows[..0], issue) == {};
    }
  }

  // The label that asks for a patch, with a lane to make it.
  predicate Triggered(labelled: bool, on: Enabled) {
    labelled && (on.patch || on.patchMulti)
  }

  // Stored as ready by the analyzer.
  ghost predicate IsReady(s: State, issue: nat) {
    issue in s.decisions && s.decisions[issue].Analyzed? && s.decisions[issue].ready
  }

  // The lane an open issue gets when the worker takes it: none while its newest row waits for a
  // human, the analyzer before it is found ready, and then a patch, unless a pull request of it
  // is open; without the label the triage, where that is on.
  lemma TakenIssue(cfg: Config, s: State, issue: nat, open: bool, labelled: bool, on: Enabled)
    requires s.job == Idle && cfg.IsIssue(issue)
    ensures var after := Step(cfg, s, TakeIssue(issue, open, labelled, on));
            && after == s.(job := after.job)
            && (!open ==> after.job == Idle)
            && (after.job == Idle || after.job.Analyzing? || after.job.Patching? || after.job.Triaging?)
            && (after.job.Analyzing? <==>
                  && open && Triggered(labelled, on) && !Waits(s.rows, issue)
                  && on.analyze && !IsReady(s, issue))
            && (after.job.Patching? <==>
                  && open && Triggered(labelled, on) && !Waits(s.rows, issue) && (on.analyze ==> IsReady(s, issue))
                  && !HasOpenRow(s.rows, issue))
            && (after.job.Triaging? <==> open && !Triggered(labelled, on) && on.triage)
            && (after.job != Idle ==> after.job.issue == issue)
  {
    WaitingIsGated(s.rows, issue);
  }

  lemma WaitingIsGated(rows: Rows, issue: nat)
    ensures Gated(rows, issue) <==> Waits(rows, issue)
  {
    if Gated(rows, issue) {
      assert IsNewest(rows, issue, NewestOf(rows, issue).value);
    }
    forall n: nat | IsNewest(rows, issue, n)
      ensures NewestOf(rows, issue) == Some(n)
    {
    }
  }

  // A patch gets the issue's branch name, followed from the second round on by the round's
  // number, which is one more than there are closed rows.
  lemma PatchBranch(cfg: Config, s: State, issue: nat, open: bool, labelled: bool, on: Enabled)
    requires s.job == Idle && Step(cfg, s, TakeIssue(issue, open, labelled, on)).job.Patching?
    ensures var after, closed := Step(cfg, s, TakeIssue(issue, open, labelled, on)), |ClosedRows(s.rows, issue)|;
            after.job.branch
            == if on.patchMulti || closed == 0 then cfg.Base(issue) else cfg.Base(issue) + "-" + Digits(closed + 1)
  {
    ClosedAreCounted(s.rows, issue, |s.rows|);
    assert s.rows[..|s.rows|] == s.rows;
  }

  // The worker waits for its answer about an issue.
  ghost predicate WorksOn(s: State, issue: nat) {
    match s.job
    case Analyzing(i) => i == issue
    case Triaging(i) => i == issue
    case Patching(i, _) => i == issue
    case _ => false
  }

  // The event with which the work began, and the state it found.
  ghost predicate Began(cfg: Config, s: State, e: Event, job: Job, issue: nat) {
    && s.job == Idle && e.TakeIssue? && e.issue == issue && e.open && Step(cfg, s, e).job == job
    && (job.Triaging? <==> !Triggered(e.labelled, e.on))
    && (!job.Triaging? ==> !Waits(s.rows, issue))
    && (job.Patching? ==> !HasOpenRow(s.rows, issue) && (e.on.analyze ==> IsReady(s, issue)))
  }

  // New work on an issue begins only with a look at it that finds it open.
  lemma WorkBegins(cfg: Config, s: State, e: Event, issue: nat)
    requires WorksOn(Step(cfg, s, e), issue) && Step(cfg, s, e).job != s.job
    ensures Began(cfg, s, e, Step(cfg, s, e).job, issue)
  {
    if !FromWorker(e) { OutsideMovesStatus(cfg, s, e); }
    assert e.TakeIssue?;
    TakenIssue(cfg, s, e.issue, e.open, e.labelled, e.on);
  }

  // So in every run: whatever the worker is doing to an issue, some event of the run began
  // that very work.
  lemma {:induction false} WorkBegan(cfg: Config, es: seq<Event>, issue: nat)
    requires WorksOn(Run(cfg, EMPTY, es), issue)
    ensures exists k :: 0 <= k < |es| && Began(cfg, Run(cfg, EMPTY, es[..k]), es[k], Run(cfg, EMPTY, es).job, issue)
  {
    if es != [] {
      var n := |es| - 1;
      var before := Run(cfg, EMPTY, es[..n]);
      assert es == es[..n] + [es[n]];
      RunOneMore(cfg, EMPTY, es[..n], es[n]);
      if Run(cfg, EMPTY, es).job == before.job {
        WorkBegan(cfg, es[..n], issue);
        var k :| 0 <= k < n && Began(cfg, Run(cfg, EMPTY, es[..n][..k]), es[..n][k], before.job, issue);
        assert es[..n][..k] == es[..k];
      } else {
        WorkBegins(cfg, before, es[n], issue);
      }
    }
  }

  // -------------------------------------------------------------------- rows

  // One row was written: the one with this key, its counters kept, or a new one.
  ghost predicate Wrote(rows: Rows, after: Rows, at: nat, task: nat, branch: string, pr: Option<nat>,
                        status: RowStatus) {
    && at < |after| == (if at < |rows| then |rows| else |rows| + 1) && at <= |rows|
    && after[at].task == task && after[at].branch == branch && after[at].pr == pr && after[at].status == status
    && (forall i :: 0 <= i < |rows| && i != at ==> after[i] == rows[i])
    && (if at < |rows|
        then && rows[at].task == task && rows[at].branch == branch
             && after[at].iterations == rows[at].iterations && after[at].resolutions == rows[at].resolutions
        else && after[at].iterations == 0 && after[at].resolutions == 0
             && forall i :: 0 <= i < |rows| ==> rows[i].task != task || rows[i].branch != branch)
  }

  ghost predicate WroteOne(rows: Rows, after: Rows, task: nat, branch: string, pr: Option<nat>, status: RowStatus) {
    exists at: nat :: Wrote(rows, after, at, task, branch, pr, status)
  }

  lemma RecordWrote(rows: Rows, task: nat, branch: string, pr: Option<nat>, status: RowStatus)
    ensures WroteOne(rows, Recorded(rows, task, branch, pr, status), task, branch, pr, status)
  {
    var after := Recorded(rows, task, branch, pr, status);
    assert Wrote(rows, after, RecordedAt(rows, task, branch), task, branch, pr, status);
  }

  // A verdict is stored, and a green light with it when it says ready; a failed analysis and a
  // failed triage store nothing.
  lemma EndedAnalysis(cfg: Config, s: State, verdict: Option<bool>, issue: nat)
    requires s.job == Analyzing(issue)
    ensures var after := Step(cfg, s, AnalyzeEnds(verdict));
            && after == s.(job := Idle, decisions := after.decisions, greens := after.greens)
            && after.decisions == (if verdict.Some? then s.decisions[issue := Analyzed(verdict.value)] else s.decisions)
            && after.greens == (if verdict == Some(true) then s.greens + [issue] else s.greens)
  {
  }

  lemma EndedTriage(cfg: Config, s: State, stored: bool, issue: nat)
    requires s.job == Triaging(issue)
    ensures var after := Step(cfg, s, TriageEnds(stored));
            && after == s.(job := Idle, decisions := after.decisions)
            && (stored ==> after.decisions == s.decisions[issue := OtherLane])
            && (!stored ==> after.decisions == s.decisions)
  {
  }

  // The row of a patch's branch reads open with its new pull request, dirty, no_changes or
  // guardrail_blocked, and then the task has a decision of the lane; after an error it reads
  // error and the decision stays.
  lemma EndedPatch(cfg: Config, s: State, result: PatchResult, issue: nat, branch: string)
    requires s.job == Patching(issue, branch) && (result.PrOpened? ==> FreshPr(cfg, s, result.pr))
    ensures var after := Step(cfg, s, PatchEnds(result));
            && after.job == Idle
            && (result.PrOpened? ==>
                  && WroteOne(s.rows, after.rows, issue, branch, Some(result.pr), Open)
                  && after.origin.Keys == s.origin.Keys + {result.pr} && after.origin[result.pr] < |after.rows|
                  && after.rows[after.origin[result.pr]].pr == Some(result.pr))
            && (result == WorktreeDirty ==> WroteOne(s.rows, after.rows, issue, branch, None, Dirty))
            && (result == NothingCommitted ==> WroteOne(s.rows, after.rows, issue, branch, None, NoChanges))
            && (result == Blocked ==> WroteOne(s.rows, after.rows, issue, branch, None, GuardrailBlocked))
            && (result == PatchFailed ==> WroteOne(s.rows, after.rows, issue, branch, None, Errored))
            && after.decisions == (if result == PatchFailed then s.decisions else s.decisions[issue := OtherLane])
            && after.outcomes == (if result == PatchFailed then s.outcomes else s.outcomes + [issue])
  {
    match result {
      case PrOpened(pr) => RecordWrote(s.rows, issue, branch, Some(pr), Open);
      case WorktreeDirty => RecordWrote(s.rows, issue, branch, None, Dirty);
      case NothingCommitted => RecordWrote(s.rows, issue, branch, None, NoChanges);
      case Blocked => RecordWrote(s.rows, issue, branch, None, GuardrailBlocked);
      case PatchFailed => RecordWrote(s.rows, issue, branch, None, Errored);
    }
  }

  // ------------------------------------------------------------- pull requests

  // The newest row with the PR's number decides: a closed pull request closes it; an open one
  // is waited for when the lane is on, the row is not closed and has iterations left.
  lemma TakenPull(cfg: Config, s: State, pr: nat, open: bool, on: Enabled, row: nat)
    requires s.job == Idle && !cfg.IsIssue(pr) && row < |s.rows| && s.rows[row].pr == Some(pr)
    requires forall j :: row < j < |s.rows| ==> s.rows[j].pr != Some(pr)
    ensures var after, r := Step(cfg, s, TakePull(pr, open, on)), s.rows[row];
            && after == s.(job := after.job, rows := after.rows)
            && after.rows == (if open then s.rows else s.rows[row := r.(status := Closed)])
            && (open && on.prDialog && r.status != Closed && r.iterations < cfg.maxIterations
                ==> after.job == Reading(pr, row, r.resolutions))
            && (!open || !on.prDialog || r.status == Closed || r.iterations >= cfg.maxIterations ==> after.job == Idle)
  {
  }

  lemma ReadFeedback(cfg: Config, s: State, feedback: bool, autoMerge: bool, pr: nat, row: nat, seen: nat)
    requires s.job == Reading(pr, row, seen)
    ensures var after := Step(cfg, s, FeedbackRead(feedback, autoMerge));
            && after == s.(job := after.job)
            && (feedback ==> after.job == Dialog(pr, row, seen))
            && (!feedback && autoMerge ==> after.job == Merging(pr, row, seen, false))
            && (!feedback && !autoMerge ==> after.job == Idle)
  {
  }

  // A dirty worktree is recorded under the pull request's own task, and needs_human and a
  // guardrail under the row's; a push is counted on the row, which reads open again; a failed
  // dialog changes nothing.
  lemma EndedDialog(cfg: Config, s: State, result: DialogResult, pr: nat, row: nat, seen: nat)
    requires s.job == Dialog(pr, row, seen) && row < |s.rows| && UniqueKeys(s.rows)
    ensures var after, r := Step(cfg, s, DialogEnds(result)), s.rows[row];
            && (after.job == if result == Pushed(true) then Merging(pr, row, seen, false) else Idle)
            && (result == DialogDirty ==> WroteOne(s.rows, after.rows, pr, r.branch, Some(pr), Dirty))
            && (result == DialogNeedsHuman ==> after.rows == s.rows[row := r.(pr := Some(pr), status := NeedsHuman)])
            && (result == DialogBlocked ==> after.rows == s.rows[row := r.(pr := Some(pr), status := GuardrailBlocked)])
            && (result.Pushed? ==>
                  after.rows == s.rows[row := r.(pr := Some(pr), status := Open, iterations := r.iterations + 1)])
            && (result == DialogFailed ==> after.rows == s.rows)
            && after.pushes == (if result.Pushed? then s.pushes + [Use(row, pr)] else s.pushes)
            && after.decisions == (if result.Pushed? || result == DialogNeedsHuman
                                   then s.decisions[pr := OtherLane] else s.decisions)
  {
    var r := s.rows[row];
    OwnKey(s.rows, row);
    match result {
      case DialogDirty => RecordWrote(s.rows, pr, r.branch, Some(pr), Dirty);
      case DialogNeedsHuman =>
      case DialogBlocked =>
      case Pushed(_) =>
        var bumped := Bumped(s.rows, row);
        assert UniqueKeys(bumped);
        OwnKey(bumped, row);
      case DialogFailed =>
    }
  }

  // Conflicts are tried once per merge, as long as the counter read with the row was below the
  // limit, and counted when the attempt got as far as conflicts.
  lemma TriedConflicts(cfg: Config, s: State, engaged: bool, pr: nat, row: nat, seen: nat, tried: bool)
    requires s.job == Merging(pr, row, seen, tried) && row < |s.rows|
    ensures var after, r := Step(cfg, s, ResolveConflicts(engaged)), s.rows[row];
            && after == s.(job := Merging(pr, row, seen, true), rows := after.rows, attempts := after.attempts)
            && (if !tried && seen < cfg.maxAttempts && engaged
                then && after.rows == s.rows[row := r.(resolutions := r.resolutions + 1)]
                     && after.attempts == s.attempts + [Use(row, pr)]
                else after.rows == s.rows && after.attempts == s.attempts)
  {
  }

  lemma EndedMerge(cfg: Config, s: State, merged: bool, pr: nat, row: nat, seen: nat, tried: bool)
    requires s.job == Merging(pr, row, seen, tried) && row < |s.rows|
    ensures var after := Step(cfg, s, MergeEnds(merged));
            && after == s.(job := Idle, rows := after.rows)
            && after.rows == if merged then s.rows[row := s.rows[row].(status := Closed)] else s.rows
  {
  }

  // ---------------------------------------------------------------- the outside

  // The poll lists rows with a PR number that are not closed, and closes what it has listed,
  // each once; a restart forgets it, with the worker's job.
  lemma Polled(cfg: Config, s: State, listed: set<nat>, row: nat)
    ensures var after := Step(cfg, s, PollList(listed));
            && after == s.(poll := after.poll)
            && (row in after.poll <==>
                  row in listed && row < |s.rows| && s.rows[row].pr.Some? && s.rows[row].status != Closed)
    ensures var after := Step(cfg, s, PollClose(row));
            && after.poll == s.poll - {row} && after == s.(rows := after.rows, poll := after.poll)
            && (row in s.poll && row < |s.rows| ==> after.rows == s.rows[row := s.rows[row].(status := Closed)])
            && (row !in s.poll ==> after.rows == s.rows)
    ensures Step(cfg, s, PollPass(row)) == s.(poll := s.poll - {row})
    ensures Step(cfg, s, Boot) == s.(job := Idle, poll := {})
  {
  }

  // The statuses that an unblock and a comment lift to cancelled: guardrail_blocked of the task,
  // and error and dirty of the issue.
  lemma LiftedParks(cfg: Config, s: State, task: nat, i: nat)
    requires i < |s.rows|
    ensures var after := Step(cfg, s, Unblock(task));
            && after == s.(rows := after.rows) && |after.rows| == |s.rows|
            && after.rows[i] == (if s.rows[i].task == task && s.rows[i].status == GuardrailBlocked
                                 then s.rows[i].(status := Cancelled) else s.rows[i])
    ensures var after := Step(cfg, s, Comment(task));
            && after == s.(rows := after.rows) && |after.rows| == |s.rows|
            && after.rows[i] == (if cfg.IsIssue(task) && s.rows[i].task == task && s.rows[i].status in {Errored, Dirty}
                                 then s.rows[i].(status := Cancelled) else s.rows[i])
  {
  }
}
