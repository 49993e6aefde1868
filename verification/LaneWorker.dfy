/**
 The worker and the poll of one repository as they run: fields updated in place, one method
 per stretch of code without an await (src/scheduler/worker.ts, src/lanes/patch.ts,
 src/lanes/pr-dialog.ts, src/scheduler/reconcile.ts).  Each method adds one event of the state
 machine in Lanes to the trace, and the fields are always what the trace leads to, so what is
 proved of runs holds of the fields: the lemmas at the end say it.
 */
module LaneWorker {
  import opened Wrappers
  import opened Numerals
  import opened PrBranches
  import opened Lanes
  import TaskQueue
  import Rounds
  import PushBudget

  // What the forge says about a polled PR.
  datatype PollAnswer = Gone | StateClosed | Feedback(unread: nat) | ProviderError

  predicate EndsRow(a: PollAnswer) {
    a.Gone? || a.StateClosed?
  }

  // The priority with which the pull request's task is queued, if it is.
  function Wakes(a: PollAnswer, autoMerge: bool): Option<TaskQueue.Priority> {
    if !a.Feedback? then None
    else if a.unread > 0 then Some(TaskQueue.High)
    else if autoMerge then Some(TaskQueue.Normal)
    else None
  }

  function PollEvent(b: nat, answer: PollAnswer): Event {
    if EndsRow(answer) then PollClose(b) else PollPass(b)
  }

  // The rows among `done` whose PR is closed or gone have been closed, and nothing else.
  ghost predicate Polled(rows: Rows, after: Rows, done: set<nat>, answers: map<nat, PollAnswer>) {
    && |after| == |rows|
    && forall i :: 0 <= i < |rows| ==>
         after[i] == if i in done && i in answers && EndsRow(answers[i]) then rows[i].(status := Closed) else rows[i]
  }

  // An answer that the PR is closed or gone closes the row, and any other passes it; new feedback
  // queues the task high, and auto-merge alone normally.
  lemma PolledAnswer(b: nat, a: PollAnswer, autoMerge: bool)
    ensures a.Gone? || a.StateClosed? ==> PollEvent(b, a) == PollClose(b) && Wakes(a, autoMerge) == None
    ensures a.ProviderError? ==> PollEvent(b, a) == PollPass(b) && Wakes(a, autoMerge) == None
    ensures a.Feedback? ==>
              && PollEvent(b, a) == PollPass(b)
              && (Wakes(a, autoMerge) == Some(TaskQueue.High) <==> a.unread != 0)
              && (Wakes(a, autoMerge) == Some(TaskQueue.Normal) <==> a.unread == 0 && autoMerge)
              && (Wakes(a, autoMerge) == None <==> a.unread == 0 && !autoMerge)
    ensures EndsRow(a) <==> a.Gone? || a.StateClosed?
  {
  }

  ghost function WokenBy(done: set<nat>, answers: map<nat, PollAnswer>, autoMerge: bool): map<nat, TaskQueue.Priority> {
    map i | i in done && i in answers && Wakes(answers[i], autoMerge).Some? :: Wakes(answers[i], autoMerge).value
  }

  lemma WokenOneMore(done: set<nat>, b: nat, answers: map<nat, PollAnswer>, autoMerge: bool)
    requires b in answers
    ensures WokenBy(done + {b}, answers, autoMerge)
            == match Wakes(answers[b], autoMerge)
               case Some(priority) => WokenBy(done, answers, autoMerge)[b := priority]
               case None => WokenBy(done, answers, autoMerge)
  {
  }

  lemma PolledOneMore(rows: Rows, mid: Rows, after: Rows, done: set<nat>, b: nat, answers: map<nat, PollAnswer>)
    requires Polled(rows, mid, done, answers) && b in answers
    requires after == if EndsRow(answers[b]) then ClosedRow(mid, b) else mid
    ensures Polled(rows, after, done + {b}, answers)
  {
  }

  class RepoWorker {
    const cfg: Config
    const table: PrBranchTable
    var decisions: map<nat, Decision>
    var job: Job
    var poll: set<nat>
    ghost var origin: map<nat, nat>
    ghost var pushes: seq<Use>
    ghost var attempts: seq<Use>
    ghost var greens: seq<nat>
    ghost var outcomes: seq<nat>
    ghost var trace: seq<Event>

    // The table keeps its keys unique, and the fields are where the trace leads.
    ghost predicate Valid()
      reads this, table
    {
      table.Valid() && View() == Run(cfg, EMPTY, trace)
    }

    ghost function View(): State
      reads this, table
    {
      State(table.rows, decisions, job, poll, origin, pushes, attempts, greens, outcomes)
    }

    constructor (cfg: Config)
      ensures this.cfg == cfg && fresh(table) && Valid() && trace == []
    {
      this.cfg := cfg;
      table := new PrBranchTable();
      decisions, job, poll := map[], Idle, {};
      origin, pushes, attempts, greens, outcomes := map[], [], [], [], [];
      trace := [];
    }

    // -------------------------------------------------------------- the worker

    method TakeIssue(issue: nat, open: bool, labelled: bool, on: Enabled)
      requires Valid()
      modifies this
      ensures Valid() && trace == old(trace) + [Event.TakeIssue(issue, open, labelled, on)]
      ensures !open || old(job) != Idle ==> job == old(job)
      ensures !labelled ==> job == old(job) || (on.triage && job == Triaging(issue))
    {
      Happened(Event.TakeIssue(issue, open, labelled, on));
      ChooseLane(issue, open, labelled, on);
    }

    method ChooseLane(issue: nat, open: bool, labelled: bool, on: Enabled)
      requires table.Valid()
      modifies this`job
      ensures View() == TakeIssueStep(cfg, old(View()), issue, open, labelled, on)
    {
      if job != Idle || !cfg.IsIssue(issue) || !open { return; }
      var hasTrigger := (on.patch || on.patchMulti) && labelled;
      if hasTrigger {
        var newest := NewestOf(table.rows, issue);
        if newest.Some? && table.rows[newest.value].status in TERMINAL { return; }
        var ready := issue in decisions && decisions[issue] == Analyzed(true);
        if on.analyze && !ready {
          job := Analyzing(issue);
        } else if !HasActivePr(table.rows, issue) {
          var closedCount := ClosedOf(table.rows, issue, |table.rows|);
          job := Patching(issue, if on.patchMulti || closedCount == 0 then cfg.Base(issue)
                                 else cfg.Base(issue) + "-" + Digits(closedCount + 1));
        }
      } else if on.triage {
        job := Triaging(issue);
      }
    }

    method TakePull(pr: nat, open: bool, on: Enabled)
      requires Valid()
      modifies this`job, this`trace, table
      ensures Valid() && trace == old(trace) + [Event.TakePull(pr, open, on)]
    {
      Happened(Event.TakePull(pr, open, on));
      if job != Idle || cfg.IsIssue(pr) { return; }
      var found := NewestByPr(table.rows, pr);
      if found.None? { return; }
      var row := found.value;
      if !open {
        table.SetClosed(row);
        return;
      }
      if !on.prDialog || table.rows[row].status == Closed { return; }
      if table.rows[row].iterations >= cfg.maxIterations { return; }
      job := Reading(pr, row, table.rows[row].resolutions);
    }

    method ReadFeedback(feedback: bool, autoMerge: bool)
      requires Valid()
      modifies this`job, this`trace
      ensures Valid() && trace == old(trace) + [FeedbackRead(feedback, autoMerge)]
    {
      Happened(FeedbackRead(feedback, autoMerge));
      if !job.Reading? { return; }
      if feedback {
        job := Dialog(job.pr, job.row, job.seen);
      } else if autoMerge {
        job := Merging(job.pr, job.row, job.seen, false);
      } else {
        job := Idle;
      }
    }

    method FinishAnalyze(verdict: Option<bool>)
      requires Valid()
      modifies this
      ensures Valid() && trace == old(trace) + [AnalyzeEnds(verdict)]
    {
      Happened(AnalyzeEnds(verdict));
      if job.Analyzing? {
        if verdict.Some? {
          decisions := decisions[job.issue := Analyzed(verdict.value)];
          if verdict.value { greens := greens + [job.issue]; }
        }
        job := Idle;
      }
    }

    method FinishTriage(stored: bool)
      requires Valid()
      modifies this
      ensures Valid() && trace == old(trace) + [TriageEnds(stored)]
    {
      Happened(TriageEnds(stored));
      if job.Triaging? {
        if stored { decisions := decisions[job.issue := OtherLane]; }
        job := Idle;
      }
    }

    method FinishPatch(result: PatchResult)
      requires Valid()
      requires job.Patching? && result.PrOpened? ==> FreshPr(cfg, View(), result.pr)
      modifies this, table
      ensures Valid() && trace == old(trace) + [PatchEnds(result)]
    {
      Happened(PatchEnds(result));
      if job.Patching? { RecordPatch(result); }
    }

    method RecordPatch(result: PatchResult)
      requires table.Valid() && job.Patching? && (result.PrOpened? ==> FreshPr(cfg, View(), result.pr))
      modifies this`job, this`decisions, this`origin, this`outcomes, table
      ensures table.Valid() && View() == PatchEndsStep(cfg, old(View()), result)
    {
      var issue, branch := job.issue, job.branch;
      var pr := if result.PrOpened? then Some(result.pr) else None;
      var status := match result
        case PrOpened(_) => Open
        case WorktreeDirty => Dirty
        case NothingCommitted => NoChanges
        case Blocked => GuardrailBlocked
        case PatchFailed => Errored;
      if result.PrOpened? {
        origin := origin[result.pr := RecordedAt(table.rows, issue, branch)];
      }
      var _ := table.RecordPrBranch(issue, branch, pr, status);
      if !result.PatchFailed? {
        decisions := decisions[issue := OtherLane];
        outcomes := outcomes + [issue];
      }
      job := Idle;
    }

    method FinishDialog(result: DialogResult)
      requires Valid()
      modifies this, table
      ensures Valid() && trace == old(trace) + [DialogEnds(result)]
    {
      Happened(DialogEnds(result));
      if job.Dialog? && job.row < |table.rows| { SettleDialog(result); }
    }

    method SettleDialog(result: DialogResult)
      requires table.Valid() && job.Dialog? && job.row < |table.rows|
      modifies this`job, this`decisions, this`pushes, table
      ensures table.Valid() && View() == DialogEndsStep(old(View()), result)
    {
      var pr, row, seen := job.pr, job.row, job.seen;
      var r := table.rows[row];
      job := Idle;
      match result {
        case DialogDirty =>
          var _ := table.RecordPrBranch(pr, r.branch, Some(pr), Dirty);
        case DialogNeedsHuman =>
          var _ := table.RecordPrBranch(r.task, r.branch, Some(pr), NeedsHuman);
          decisions := decisions[pr := OtherLane];
        case DialogBlocked =>
          var _ := table.RecordPrBranch(r.task, r.branch, Some(pr), GuardrailBlocked);
        case Pushed(thenMerge) =>
          CountPush(row, r, pr);
          if thenMerge { job := Merging(pr, row, seen, false); }
        case DialogFailed =>
      }
    }

    // The bump and the record of a push.
    method CountPush(row: nat, r: Row, pr: nat)
      requires table.Valid() && row < |table.rows|
      modifies this`decisions, this`pushes, table
      ensures table.Valid() && table.rows == Recorded(Bumped(old(table.rows), row), r.task, r.branch, Some(pr), Open)
      ensures decisions == old(decisions)[pr := OtherLane] && pushes == old(pushes) + [Use(row, pr)]
    {
      table.BumpIteration(row);
      var _ := table.RecordPrBranch(r.task, r.branch, Some(pr), Open);
      decisions := decisions[pr := OtherLane];
      pushes := pushes + [Use(row, pr)];
    }

    method ResolveConflicts(engaged: bool)
      requires Valid()
      modifies this, table
      ensures Valid() && trace == old(trace) + [Event.ResolveConflicts(engaged)]
    {
      Happened(Event.ResolveConflicts(engaged));
      if !job.Merging? { return; }
      if !job.tried && job.seen < cfg.maxAttempts && engaged {
        table.BumpConflictResolutions(job.row);
        attempts := attempts + [Use(job.row, job.pr)];
      }
      job := job.(tried := true);
    }

    method FinishMerge(merged: bool)
      requires Valid()
      modifies this, table
      ensures Valid() && trace == old(trace) + [MergeEnds(merged)]
    {
      Happened(MergeEnds(merged));
      if !job.Merging? { return; }
      if merged { table.SetClosed(job.row); }
      job := Idle;
    }

    // What was awaited and what the poll had listed is gone; the tables stay.
    method Restart()
      requires Valid()
      modifies this
      ensures Valid() && trace == old(trace) + [Boot]
    {
      Happened(Boot);
      job, poll := Idle, {};
    }

    // The next event enters the trace; the fields have yet to follow.
    ghost method Happened(e: Event)
      requires Valid()
      modifies this`trace
      ensures trace == old(trace) + [e] && Run(cfg, EMPTY, trace) == Step(cfg, View(), e)
    {
      RunOneMore(cfg, EMPTY, trace, e);
      trace := trace + [e];
    }

    // -------------------------------------------------------- poll and webhook

    // One listed row after the forge has answered; `woken` is how its task is queued, if it is.
    method PollRow(b: nat, answer: PollAnswer, autoMerge: bool) returns (woken: Option<TaskQueue.Priority>)
      requires Valid() && b in poll
      modifies this`poll, this`trace, table
      ensures Valid() && trace == old(trace) + [PollEvent(b, answer)]
      ensures poll == old(poll) - {b} && woken == Wakes(answer, autoMerge)
      ensures table.rows == if EndsRow(answer) then ClosedRow(old(table.rows), b) else old(table.rows)
    {
      Happened(PollEvent(b, answer));
      woken := None;
      match answer {
        case Gone => table.SetClosed(b);
        case StateClosed => table.SetClosed(b);
        case Feedback(unread) =>
          if unread > 0 || autoMerge { woken := Some(if unread > 0 then TaskQueue.High else TaskQueue.Normal); }
        case ProviderError =>
      }
      poll := poll - {b};
    }

    // Rows with a PR number that are not closed, among those the query returned.
    method BeginPoll(recent: set<nat>)
      requires Valid()
      modifies this`poll, this`trace
      ensures Valid() && trace == old(trace) + [PollList(recent)]
      ensures poll == PollListStep(old(View()), recent).poll
    {
      Happened(PollList(recent));
      poll := set i | i in recent && i < |table.rows| && table.rows[i].pr.Some? && table.rows[i].status != Closed;
    }

    // The poll with nothing interleaved: rows answered closed or gone are closed, the others
    // are untouched, and exactly the ones with news are queued again.
    method PollOurPrs(recent: set<nat>, answers: map<nat, PollAnswer>, autoMerge: bool)
      returns (polled: nat, queued: map<nat, TaskQueue.Priority>)
      requires Valid()
      requires forall i :: i in recent && i < |table.rows| ==> i in answers
      modifies this`poll, this`trace, table
      ensures Valid() && poll == {}
      ensures var listed := PollListStep(old(View()), recent).poll;
              && Polled(old(table.rows), table.rows, listed, answers)
              && polled == |listed| && queued == WokenBy(listed, answers, autoMerge)
    {
      BeginPoll(recent);
      polled, queued := PollRows(answers, autoMerge);
    }

    method PollRows(answers: map<nat, PollAnswer>, autoMerge: bool)
      returns (polled: nat, queued: map<nat, TaskQueue.Priority>)
      requires Valid() && poll <= answers.Keys
      modifies this`poll, this`trace, table
      ensures Valid() && poll == {}
      ensures Polled(old(table.rows), table.rows, old(poll), answers)
      ensures polled == |old(poll)| && queued == WokenBy(old(poll), answers, autoMerge)
    {
      ghost var listed, rows := poll, table.rows;
      polled, queued := 0, map[];
      while poll != {}
        invariant poll <= listed
        invariant Valid() && Polled(rows, table.rows, listed - poll, answers)
        invariant polled == |listed| - |poll|
        invariant queued == WokenBy(listed - poll, answers, autoMerge)
      {
        ghost var left, mid := poll, table.rows;
        var b :| b in poll;
        var wakes := PollRow(b, answers[b], autoMerge);
        polled := polled + 1;
        if wakes.Some? { queued := queued[b := wakes.value]; }
        assert listed - poll == listed - left + {b};
        PolledOneMore(rows, mid, table.rows, listed - left, b, answers);
        WokenOneMore(listed - left, b, answers, autoMerge);
      }
      assert listed - poll == listed;
    }

    method CancelGuardrailParks(task: nat)
      requires Valid()
      modifies this`trace, table
      ensures Valid() && trace == old(trace) + [Unblock(task)]
    {
      Happened(Unblock(task));
      table.CancelGuardrail(task);
    }

    // `lifted` is what the webhook answers: whether some park was lifted.
    method OnComment(issue: nat) returns (lifted: bool)
      requires Valid()
      modifies this`trace, table
      ensures Valid() && trace == old(trace) + [Comment(issue)]
      ensures lifted <==> table.rows != old(table.rows)
    {
      Happened(Comment(issue));
      lifted := false;
      if cfg.IsIssue(issue) {
        lifted := table.LiftTransientPark(issue);
      }
    }
  }

  // ------------------------------------------------------- theorems of the fields

  // However the methods have been called, the table holds exact rounds.
  lemma TableHoldsRounds(w: RepoWorker, issue: nat)
    requires w.Valid() && w.cfg.IsIssue(issue)
    requires forall i :: 0 <= i < |w.trace| ==> Rounds.SinglePatchLane(w.trace[i])
    ensures Rounds.ExactRounds(w.cfg, w.table.rows, issue)
  {
    Rounds.RoundsTheorem(w.cfg, w.trace, issue);
  }

  // And its counters are what they count, within their limits.
  lemma TableHoldsBudgets(w: RepoWorker, i: nat)
    requires w.Valid() && i < |w.table.rows|
    ensures w.table.rows[i].iterations == PushBudget.Uses(w.pushes, i) <= w.cfg.maxIterations
    ensures w.table.rows[i].resolutions == PushBudget.Uses(w.attempts, i) <= w.cfg.maxAttempts
  {
    PushBudget.BudgetTheorem(w.cfg, w.trace, 0);
  }
}
