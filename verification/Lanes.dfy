/**
 The lanes of one repository as a state machine: the repo's single drain worker
 (src/scheduler/worker.ts) running analyze, triage, patch, patch_multi and pr_dialog jobs,
 interleaved at every await with the reconcile poll, label removals, comments and admin
 retries.  An event that is not enabled leaves the state alone, so every sequence of events
 is a run.
 */
module Lanes {
  import opened Wrappers
  import opened Numerals
  import opened PrBranches

  // ------------------------------------------------------------ configuration

  // Issue and PR numbers come from one sequence: a number is an issue's when `titles` has it,
  // with the branch name made of its number and (fixed) title.
  datatype Config = Config(titles: map<nat, string>, maxIterations: nat, maxAttempts: nat) {
    predicate IsIssue(n: nat) { n in titles }

    function Base(n: nat): string { if n in titles then titles[n] else "" }
  }

  // The lanes enabled for the repo when an event happens.
  datatype Enabled = Enabled(analyze: bool, patch: bool, patchMulti: bool, prDialog: bool, triage: bool)

  datatype Lane = Analyze | Patch | PatchMulti | Triage

  // Rounds count from 1; the first has the bare name.
  function RoundName(cfg: Config, issue: nat, round: nat): string {
    if round <= 1 then cfg.Base(issue) else cfg.Base(issue) + "-" + Digits(round)
  }

  // ------------------------------------------------------------------- state

  // tasks.decision_json as pickLane reads it: absent or malformed, the analyzer's verdict, or
  // the record of another lane.
  datatype Decision = Absent | Analyzed(ready: bool) | OtherLane

  // What the worker is awaiting.  A dialog remembers the row it read before it asked for the
  // feedback, with that row's conflict counter.
  datatype Job =
    | Idle
    | Analyzing(issue: nat)
    | Triaging(issue: nat)
    | Patching(issue: nat, branch: string)
    | Reading(pr: nat, row: nat, seen: nat)
    | Dialog(pr: nat, row: nat, seen: nat)
    | Merging(pr: nat, row: nat, seen: nat, tried: bool)

  datatype Use = Use(row: nat, pr: nat)

  // `poll` is what the reconcile poll has listed and not yet handled.  The last five fields
  // are history: the row each PR was opened through, the pushes and the counted conflict
  // resolutions of PRs, the issues given a green light, and the issues with a recorded patch
  // outcome.
  datatype State = State(
    rows: Rows,
    decisions: map<nat, Decision>,
    job: Job,
    poll: set<nat>,
    origin: map<nat, nat>,
    pushes: seq<Use>,
    attempts: seq<Use>,
    greens: seq<nat>,
    outcomes: seq<nat>)

  const EMPTY := State([], map[], Idle, {}, map[], [], [], [], [])

  function DecisionOf(s: State, task: nat): Decision {
    if task in s.decisions then s.decisions[task] else Absent
  }

  const TERMINAL: set<RowStatus> := {GuardrailBlocked, NoChanges, NeedsHuman}

  predicate Gated(rows: Rows, issue: nat) {
    NewestOf(rows, issue).Some? && rows[NewestOf(rows, issue).value].status in TERMINAL
  }

  // pickLane for an issue.
  function PickLane(s: State, issue: nat, open: bool, labelled: bool, on: Enabled): Option<Lane> {
    var hasTrigger := (on.patch || on.patchMulti) && labelled;
    var build := if on.patchMulti then PatchMulti else Patch;
    if !open then None
    else if hasTrigger && Gated(s.rows, issue) then None
    else if hasTrigger && on.analyze then
      if DecisionOf(s, issue) == Analyzed(true) then Some(build) else Some(Analyze)
    else if hasTrigger then Some(build)
    else if on.triage then Some(Triage)
    else None
  }

  // ------------------------------------------------------------------ events

  datatype PatchResult = PrOpened(pr: nat) | WorktreeDirty | NothingCommitted | Blocked | PatchFailed

  datatype DialogResult = DialogDirty | DialogNeedsHuman | DialogBlocked | Pushed(thenMerge: bool) | DialogFailed

  datatype Event =
    // the worker
    | TakeIssue(issue: nat, open: bool, labelled: bool, on: Enabled)
    | TakePull(pr: nat, open: bool, on: Enabled)
    | FeedbackRead(feedback: bool, autoMerge: bool)
    | AnalyzeEnds(verdict: Option<bool>)
    | TriageEnds(stored: bool)
    | PatchEnds(patched: PatchResult)
    | DialogEnds(dialog: DialogResult)
    | ResolveConflicts(engaged: bool)
    | MergeEnds(merged: bool)
    // the process stops, in whatever it was doing, and starts again
    | Boot
    // reconcile, webhook and admin, at any moment
    | PollList(listed: set<nat>)
    | PollClose(polled: nat)
    | PollPass(passed: nat)
    | Unblock(task: nat)
    | Comment(commented: nat)

  // The worker, and the process around it.
  predicate FromWorker(e: Event) {
    || e.Boot? || e.TakeIssue? || e.TakePull? || e.FeedbackRead? || e.AnalyzeEnds? || e.TriageEnds?
    || e.PatchEnds? || e.DialogEnds? || e.ResolveConflicts? || e.MergeEnds?
  }

  function StartPatch(cfg: Config, s: State, issue: nat, multi: bool): State {
    if HasActivePr(s.rows, issue) then s
    else if multi then s.(job := Patching(issue, cfg.Base(issue)))
    else s.(job := Patching(issue, RoundName(cfg, issue, ClosedOf(s.rows, issue, |s.rows|) + 1)))
  }

  function TakeIssueStep(cfg: Config, s: State, issue: nat, open: bool, labelled: bool, on: Enabled): State {
    if s.job != Idle || !cfg.IsIssue(issue) then s
    else
      match PickLane(s, issue, open, labelled, on)
      case None => s
      case Some(Analyze) => s.(job := Analyzing(issue))
      case Some(Triage) => s.(job := Triaging(issue))
      case Some(Patch) => StartPatch(cfg, s, issue, false)
      case Some(PatchMulti) => StartPatch(cfg, s, issue, true)
  }

  // A PR seen closed closes our row; for an open one with a live row the feedback is fetched,
  // unless its iterations are used up.
  function TakePullStep(cfg: Config, s: State, pr: nat, open: bool, on: Enabled): State {
    if s.job != Idle || cfg.IsIssue(pr) then s
    else
      match NewestByPr(s.rows, pr)
      case None => s
      case Some(row) =>
        if !open then s.(rows := ClosedRow(s.rows, row))
        else if !on.prDialog || s.rows[row].status == Closed then s
        else if s.rows[row].iterations >= cfg.maxIterations then s
        else s.(job := Reading(pr, row, s.rows[row].resolutions))
  }

  // The row is not looked at again.
  function FeedbackReadStep(s: State, feedback: bool, autoMerge: bool): State {
    match s.job
    case Reading(pr, row, seen) =>
      if feedback then s.(job := Dialog(pr, row, seen))
      else if autoMerge then s.(job := Merging(pr, row, seen, false))
      else s.(job := Idle)
    case _ => s
  }

  function AnalyzeEndsStep(s: State, verdict: Option<bool>): State {
    match s.job
    case Analyzing(issue) =>
      if verdict.None? then s.(job := Idle)
      else
        s.(job := Idle,
           decisions := s.decisions[issue := Analyzed(verdict.value)],
           greens := if verdict.value then s.greens + [issue] else s.greens)
    case _ => s
  }

  function TriageEndsStep(s: State, stored: bool): State {
    match s.job
    case Triaging(issue) =>
      if stored then s.(job := Idle, decisions := s.decisions[issue := OtherLane]) else s.(job := Idle)
    case _ => s
  }

  predicate FreshPr(cfg: Config, s: State, pr: nat) {
    !cfg.IsIssue(pr) && pr !in s.origin
  }

  function PatchOutcome(s: State, issue: nat, branch: string, pr: Option<nat>, status: RowStatus): State {
    s.(job := Idle,
       rows := Recorded(s.rows, issue, branch, pr, status),
       decisions := s.decisions[issue := OtherLane],
       outcomes := s.outcomes + [issue])
  }

  // The forge never hands out a PR number twice.
  function PatchEndsStep(cfg: Config, s: State, result: PatchResult): State {
    match s.job
    case Patching(issue, branch) => (
      match result
      case PrOpened(pr) =>
        if !FreshPr(cfg, s, pr) then s
        else
          var t := PatchOutcome(s, issue, branch, Some(pr), Open);
          t.(origin := s.origin[pr := RecordedAt(s.rows, issue, branch)])
      case WorktreeDirty => PatchOutcome(s, issue, branch, None, Dirty)
      case NothingCommitted => PatchOutcome(s, issue, branch, None, NoChanges)
      case Blocked => PatchOutcome(s, issue, branch, None, GuardrailBlocked)
      case PatchFailed => s.(job := Idle, rows := Recorded(s.rows, issue, branch, None, Errored))
    )
    case _ => s
  }

  // A dirty worktree is recorded under the PR's own task, the other outcomes under the row's.
  function DialogEndsStep(s: State, result: DialogResult): State {
    match s.job
    case Dialog(pr, row, seen) =>
      if row >= |s.rows| then s
      else (
        var r := s.rows[row];
        match result
        case DialogDirty => s.(job := Idle, rows := Recorded(s.rows, pr, r.branch, Some(pr), Dirty))
        case DialogNeedsHuman =>
          s.(job := Idle,
             rows := Recorded(s.rows, r.task, r.branch, Some(pr), NeedsHuman),
             decisions := s.decisions[pr := OtherLane])
        case DialogBlocked => s.(job := Idle, rows := Recorded(s.rows, r.task, r.branch, Some(pr), GuardrailBlocked))
        case Pushed(thenMerge) =>
          s.(job := if thenMerge then Merging(pr, row, seen, false) else Idle,
             rows := Recorded(Bumped(s.rows, row), r.task, r.branch, Some(pr), Open),
             decisions := s.decisions[pr := OtherLane],
             pushes := s.pushes + [Use(row, pr)])
        case DialogFailed => s.(job := Idle)
      )
    case _ => s
  }

  // At most one rebase attempt per auto-merge, gated on the counter read at the dialog's
  // start, and counted unless it found no conflicts.
  function ResolveStep(cfg: Config, s: State, engaged: bool): State {
    match s.job
    case Merging(pr, row, seen, tried) =>
      if tried || seen >= cfg.maxAttempts || !engaged then s.(job := Merging(pr, row, seen, true))
      else
        s.(job := Merging(pr, row, seen, true),
           rows := BumpedResolutions(s.rows, row),
           attempts := s.attempts + [Use(row, pr)])
    case _ => s
  }

  function MergeEndsStep(s: State, merged: bool): State {
    match s.job
    case Merging(pr, row, _, _) => s.(job := Idle, rows := if merged then ClosedRow(s.rows, row) else s.rows)
    case _ => s
  }

  // The poll works through rows that carried a PR number and were not closed when it listed
  // them; it closes by id, without looking again.
  function PollListStep(s: State, listed: set<nat>): State {
    s.(poll := set i | i in listed && i < |s.rows| && s.rows[i].pr.Some? && s.rows[i].status != Closed)
  }

  function Step(cfg: Config, s: State, e: Event): State {
    match e
    case TakeIssue(issue, open, labelled, on) => TakeIssueStep(cfg, s, issue, open, labelled, on)
    case TakePull(pr, open, on) => TakePullStep(cfg, s, pr, open, on)
    case FeedbackRead(feedback, autoMerge) => FeedbackReadStep(s, feedback, autoMerge)
    case Boot => s.(job := Idle, poll := {})
    case AnalyzeEnds(verdict) => AnalyzeEndsStep(s, verdict)
    case TriageEnds(stored) => TriageEndsStep(s, stored)
    case PatchEnds(result) => PatchEndsStep(cfg, s, result)
    case DialogEnds(result) => DialogEndsStep(s, result)
    case ResolveConflicts(engaged) => ResolveStep(cfg, s, engaged)
    case MergeEnds(merged) => MergeEndsStep(s, merged)
    case PollList(listed) => PollListStep(s, listed)
    case PollClose(row) => if row in s.poll then s.(rows := ClosedRow(s.rows, row), poll := s.poll - {row}) else s
    case PollPass(row) => s.(poll := s.poll - {row})
    case Unblock(task) => s.(rows := CancelledWhere(s.rows, task, {GuardrailBlocked}))
    case Comment(issue) => if cfg.IsIssue(issue) then s.(rows := CancelledWhere(s.rows, issue, {Errored, Dirty})) else s
  }

  // Whatever happens outside the worker moves statuses and the poll list, nothing else.
  lemma OutsideMovesStatus(cfg: Config, s: State, e: Event)
    requires !FromWorker(e)
    ensures var after := Step(cfg, s, e);
            OnlyStatusMoves(s.rows, after.rows) && after == s.(rows := after.rows, poll := after.poll)
  {
  }

  function Run(cfg: Config, s: State, es: seq<Event>): State
    decreases |es|
  {
    if es == [] then s else Run(cfg, Step(cfg, s, es[0]), es[1..])
  }

  lemma {:induction false} RunSplits(cfg: Config, s: State, es: seq<Event>, fs: seq<Event>)
    ensures Run(cfg, s, es + fs) == Run(cfg, Run(cfg, s, es), fs)
    decreases |es|
  {
    if es == [] {
      assert es + fs == fs;
    } else {
      assert (es + fs)[1..] == es[1..] + fs;
      RunSplits(cfg, Step(cfg, s, es[0]), es[1..], fs);
    }
  }

  lemma OneStep(cfg: Config, s: State, e: Event)
    ensures Run(cfg, s, [e]) == Step(cfg, s, e)
  {
    assert [e][1..] == [];
    assert Run(cfg, Step(cfg, s, e), []) == Step(cfg, s, e);
  }

  lemma RunOneMore(cfg: Config, s: State, es: seq<Event>, e: Event)
    ensures Run(cfg, s, es + [e]) == Step(cfg, Run(cfg, s, es), e)
  {
    RunSplits(cfg, s, es, [e]);
    OneStep(cfg, Run(cfg, s, es), e);
  }
}
