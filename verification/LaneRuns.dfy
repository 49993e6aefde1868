/**
 Runs from an empty table that reach the states in which a promise of the lanes fails: a
 round closed under a dialog or a patch in flight (ClosedRounds), and an issue parked while a
 poll still lists its row (Parking).
 */
module LaneRuns {
  import opened Wrappers
  import opened PrBranches
  import opened Lanes
  import ClosedRounds

  // Patch and dialog are on, analyze is not.
  const ON := Enabled(false, true, false, true, false)

  function Only(cfg: Config, issue: nat, pr: Option<nat>, status: RowStatus): Rows {
    [Row(issue, cfg.Base(issue), pr, status, 0, 0)]
  }

  // The first round has opened its pull request.
  function Opened(cfg: Config, issue: nat, pr: nat): State {
    State(Only(cfg, issue, Some(pr), Open), map[issue := OtherLane], Idle, {}, map[pr := 0], [], [], [], [issue])
  }

  lemma OpenedFromEmpty(cfg: Config, issue: nat, pr: nat) returns (es: seq<Event>)
    requires cfg.IsIssue(issue) && !cfg.IsIssue(pr)
    ensures Run(cfg, EMPTY, es) == Opened(cfg, issue, pr)
  {
    var take, end := TakeIssue(issue, true, true, ON), PatchEnds(PrOpened(pr));
    es := [take] + [end];
    OneStep(cfg, EMPTY, take);
    RunOneMore(cfg, EMPTY, [take], end);
    var taken := Step(cfg, EMPTY, take);
    assert ClosedOf([], issue, 0) == 0;
    assert taken == EMPTY.(job := Patching(issue, cfg.Base(issue)));
    assert FindKey([], issue, cfg.Base(issue)) == None;
  }

  // The pull request's dialog is under way.
  lemma DialogStarts(cfg: Config, s: State, issue: nat, pr: nat, es: seq<Event>) returns (more: seq<Event>)
    requires cfg.IsIssue(issue) && !cfg.IsIssue(pr) && cfg.maxIterations > 0
    requires s == Run(cfg, EMPTY, es) && s.rows == Only(cfg, issue, Some(pr), Open) && s.job == Idle
    ensures Run(cfg, EMPTY, more) == s.(job := Dialog(pr, 0, 0))
  {
    var take, read := TakePull(pr, true, ON), FeedbackRead(true, false);
    more := es + [take] + [read];
    RunOneMore(cfg, EMPTY, es, take);
    RunOneMore(cfg, EMPTY, es + [take], read);
    assert s.rows[..0] == [];
    assert Step(cfg, s, take).job == Reading(pr, 0, 0);
  }

  // The dialog is blocked by a guardrail, the admin unblocks the issue, and the next patch
  // starts under the same name, its row still carrying the pull request.
  lemma SecondPatchStarts(cfg: Config, s: State, issue: nat, pr: nat, es: seq<Event>) returns (more: seq<Event>)
    requires cfg.IsIssue(issue) && !cfg.IsIssue(pr)
    requires s == Run(cfg, EMPTY, es) && s.rows == Only(cfg, issue, Some(pr), Open) && s.job == Dialog(pr, 0, 0)
    ensures Run(cfg, EMPTY, more)
            == s.(rows := Only(cfg, issue, Some(pr), Cancelled), job := Patching(issue, cfg.Base(issue)))
  {
    var end, lift, take := DialogEnds(DialogBlocked), Unblock(issue), TakeIssue(issue, true, true, ON);
    more := es + [end] + [lift] + [take];
    RunOneMore(cfg, EMPTY, es, end);
    RunOneMore(cfg, EMPTY, es + [end], lift);
    RunOneMore(cfg, EMPTY, es + [end] + [lift], take);
    assert s.rows[..0] == [];
    var blocked := Step(cfg, s, end);
    assert blocked.rows == Only(cfg, issue, Some(pr), GuardrailBlocked) && blocked.job == Idle;
    var lifted := Step(cfg, blocked, lift);
    assert lifted.rows == Only(cfg, issue, Some(pr), Cancelled);
    assert ClosedOf(lifted.rows, issue, 1) == ClosedOf(lifted.rows, issue, 0) == 0;
    assert lifted.rows[..0] == [];
    assert NewestOf(lifted.rows, issue) == Some(0);
  }

  lemma PollCloses(cfg: Config, s: State, issue: nat, pr: nat, job: Job, es: seq<Event>) returns (more: seq<Event>)
    requires s == Run(cfg, EMPTY, es) && s.job == job && |s.rows| == 1
    requires s.rows[0].pr == Some(pr) && s.rows[0].status != Closed
    ensures var after := Run(cfg, EMPTY, more);
            after.job == job && after.rows == [s.rows[0].(status := Closed)]
  {
    more := es + [PollList({0})] + [PollClose(0)];
    RunOneMore(cfg, EMPTY, es, PollList({0}));
    RunOneMore(cfg, EMPTY, es + [PollList({0})], PollClose(0));
    assert 0 in Step(cfg, s, PollList({0})).poll;
  }

  // Closed while its dialog is under way.
  lemma ClosedUnderDialog(cfg: Config, issue: nat, pr: nat) returns (es: seq<Event>)
    requires cfg.IsIssue(issue) && !cfg.IsIssue(pr) && cfg.maxIterations > 0
    ensures var s := Run(cfg, EMPTY, es);
            && |s.rows| == 1 && s.rows[0].task == issue && s.rows[0].status == Closed
            && s.job.Dialog? && ClosedRounds.InHand(s, 0)
  {
    es := OpenedFromEmpty(cfg, issue, pr);
    es := DialogStarts(cfg, Opened(cfg, issue, pr), issue, pr, es);
    var s := Run(cfg, EMPTY, es);
    es := PollCloses(cfg, s, issue, pr, s.job, es);
  }

  // Closed while the next patch of its issue is under way.
  lemma ClosedUnderPatch(cfg: Config, issue: nat, pr: nat) returns (es: seq<Event>)
    requires cfg.IsIssue(issue) && !cfg.IsIssue(pr) && cfg.maxIterations > 0
    ensures var s := Run(cfg, EMPTY, es);
            && |s.rows| == 1 && s.rows[0].task == issue && s.rows[0].status == Closed
            && s.job.Patching? && ClosedRounds.InHand(s, 0)
  {
    es := OpenedFromEmpty(cfg, issue, pr);
    es := DialogStarts(cfg, Opened(cfg, issue, pr), issue, pr, es);
    es := SecondPatchStarts(cfg, Run(cfg, EMPTY, es), issue, pr, es);
    var s := Run(cfg, EMPTY, es);
    es := PollCloses(cfg, s, issue, pr, s.job, es);
  }

  // How a patch round ends that parks its issue without a pull request.
  predicate Parks(result: PatchResult, status: RowStatus) {
    (result == NothingCommitted && status == NoChanges) || (result == Blocked && status == GuardrailBlocked)
  }

  // Parked without a pull request while a poll in progress lists the row, which opens the gate.
  lemma ParkedUnderPoll(cfg: Config, issue: nat, pr: nat, result: PatchResult, status: RowStatus)
    returns (es: seq<Event>)
    requires cfg.IsIssue(issue) && !cfg.IsIssue(pr) && cfg.maxIterations > 0 && Parks(result, status)
    ensures var s := Run(cfg, EMPTY, es);
            && s.rows == Only(cfg, issue, None, status) && Gated(s.rows, issue) && 0 in s.poll
            && !Gated(Step(cfg, s, PollClose(0)).rows, issue)
  {
    es := OpenedFromEmpty(cfg, issue, pr);
    RunOneMore(cfg, EMPTY, es, PollList({0}));
    es := es + [PollList({0})];
    assert 0 in Run(cfg, EMPTY, es).poll;
    es := DialogStarts(cfg, Run(cfg, EMPTY, es), issue, pr, es);
    es := SecondPatchStarts(cfg, Run(cfg, EMPTY, es), issue, pr, es);
    var s := Run(cfg, EMPTY, es);
    RunOneMore(cfg, EMPTY, es, PatchEnds(result));
    es := es + [PatchEnds(result)];
    assert FindKey(s.rows, issue, cfg.Base(issue)) == Some(0);
    var parked := Run(cfg, EMPTY, es);
    assert parked.rows == Only(cfg, issue, None, status);
    assert parked.rows[..0] == [];
    assert NewestOf(parked.rows, issue) == Some(0);
    var reopened := Step(cfg, parked, PollClose(0));
    assert NewestOf(reopened.rows, issue) == Some(0);
  }
}
