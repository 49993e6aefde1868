/**
 The rebase-and-resolve loop (src/lanes/conflict-resolve.ts:83-305) over an abstract clone
 (src/lib/git.ts:255-400).  git, the engine and everybody else who can push are free: they
 are nondeterministic, within what git promises.  An abort works, a rebase that git finishes
 has the base in the branch, and a push that fails leaves the remote alone.
 */
module RebaseLoop {
  import opened Wrappers

  datatype RebaseStep = Clean | Conflicts(files: seq<string>) | Stopped | StepThrew

  datatype Outcome =
    | Rebased | NoConflicts | AgentFailed | StillConflicted | PushFailed | RebaseAborted | MaxAttempts | Error | Threw

  // A push tried: the commit its lease expects, the one it found, the head and whether it has
  // the base in it, and whether it was accepted.
  datatype Push = Push(expected: nat, found: nat, head: nat, based: bool, accepted: bool)

  // A call of the engine: refused before it starts, by the daily cap or for want of an engine,
  // or begun, with the state in which it left the clone.
  datatype Call = Refused | Called(ok: bool, rebasing: bool, based: bool)

  datatype Check = Check(path: string, clean: bool)

  datatype Staging = Staging(files: seq<string>, ok: bool)

  // A clone and the branch it was made from.  Commits are numbers; `based` is whether the local
  // branch has the fetched base in it.  The last six fields are history: how often a
  // clone or a fetch failed, the pushes tried, the calls of the engine, the steps git took, the
  // stagings and the marker checks made.
  class Clone {
    var remote: nat
    var tracking: nat
    var head: nat
    var rebasing: bool
    var based: bool
    var failures: nat
    var pushes: seq<Push>
    var calls: seq<Call>
    var steps: seq<RebaseStep>
    var stagings: seq<Staging>
    var checks: seq<Check>

    constructor ()
    {
      remote, tracking, head, rebasing, based := 0, 0, 0, false, false;
      failures, pushes, calls, steps, stagings, checks := 0, [], [], [], [], [];
    }

    // Others push to the branch.
    method Others()
      modifies this`remote
    {
      remote := *;
    }

    method FreshClone() returns (ok: bool)
      modifies this`rebasing, this`tracking, this`head, this`based, this`remote, this`failures
      ensures !rebasing && failures == old(failures) + if ok then 0 else 1
    {
      rebasing := false;
      Others();
      tracking, head, based := remote, remote, *;
      ok := *;
      if !ok { failures := failures + 1; }
    }

    method RebaseAbort()
      modifies this`rebasing, this`head, this`based
      ensures !rebasing
    {
      rebasing := false;
      head, based := *, *;
    }

    // Fetch base and branch, then align the local branch with what was fetched.
    method FetchAndSync() returns (synced: Option<nat>)
      requires !rebasing
      modifies this`tracking, this`head, this`based, this`remote, this`failures
      ensures synced.Some? ==> head == tracking == synced.value
      ensures failures == old(failures) + if synced.Some? then 0 else 1
    {
      Others();
      tracking := remote;
      Others();
      var ok := *;
      if !ok {
        failures := failures + 1;
        return None;
      }
      head, based := tracking, *;
      synced := Some(head);
    }

    // startRebaseOnto and continueRebase: done, paused on conflicts, or aborted.
    method GitRebase() returns (step: RebaseStep)
      modifies this`rebasing, this`head, this`based, this`steps
      ensures steps == old(steps) + [step]
      ensures match step
              case Clean => !rebasing && based
              case Conflicts(files) => rebasing && files != []
              case Stopped => !rebasing
              case StepThrew => true
    {
      step := TakeStep();
      steps := steps + [step];
    }

    method TakeStep() returns (step: RebaseStep)
      modifies this`rebasing, this`head, this`based
      ensures match step
              case Clean => !rebasing && based
              case Conflicts(files) => rebasing && files != []
              case Stopped => !rebasing
              case StepThrew => true
    {
      head, based := *, *;
      var ok := *;
      if ok {
        rebasing, based := false, true;
        return Clean;
      }
      rebasing := *;
      var threw := *;
      if threw { return StepThrew; }
      var files: seq<string> := *;
      if files != [] {
        rebasing := true;
        return Conflicts(files);
      }
      RebaseAbort();
      step := Stopped;
    }

    method AddPaths(files: seq<string>) returns (ok: bool)
      modifies this`stagings
      ensures stagings == old(stagings) + [Staging(files, ok)]
    {
      ok := *;
      stagings := stagings + [Staging(files, ok)];
    }

    // The engine edits the worktree, may finish or abort the rebase against its instructions,
    // and takes so long that anybody may have pushed.
    method Engine() returns (call: Call)
      modifies this`calls, this`head, this`rebasing, this`based, this`remote
      ensures calls == old(calls) + [call]
      ensures call.Called? ==> rebasing == call.rebasing && based == call.based
    {
      var refused := *;
      if refused {
        call := Refused;
      } else {
        head, rebasing, based := *, *, *;
        Others();
        var ok := *;
        call := Called(ok, rebasing, based);
      }
      calls := calls + [call];
    }

    method HasConflictMarkers(path: string) returns (dirty: bool)
      modifies this`checks
      ensures checks == old(checks) + [Check(path, !dirty)]
    {
      dirty := *;
      checks := checks + [Check(path, !dirty)];
    }

    // The lease names the commit the rebase started from.
    method ForcePushWithLease(expected: nat) returns (ok: bool)
      modifies this`remote, this`pushes
      ensures |pushes| == |old(pushes)| + 1 && old(pushes) <= pushes
      ensures var push := pushes[|old(pushes)|];
              && push.expected == expected && push.head == head && push.based == based && push.accepted == ok
              && (ok ==> push.found == expected)
    {
      Others();
      ok := *;
      if remote != expected { ok := false; }
      pushes := pushes + [Push(expected, remote, head, based, ok)];
      if ok { remote := head; }
      Others();
    }
  }

  // ------------------------------------------------------------------ the loop

  // The listed files, each once, passed their marker check since `from`.
  ghost predicate PassedOnce(files: seq<string>, checks: seq<Check>, from: nat) {
    && (forall i, j :: 0 <= i < j < |files| ==> files[i] != files[j])
    && forall f :: f in files ==> exists c :: from <= c < |checks| && checks[c] == Check(f, true)
  }

  ghost predicate AllClean(checks: seq<Check>, from: nat) {
    forall c :: from <= c < |checks| ==> checks[c].clean
  }

  // Checks every conflicted file and, when all are clean, lists those not yet listed.
  method CheckBatch(git: Clone, batch: seq<string>, listed: seq<string>, ghost from: nat)
    returns (clean: bool, now: seq<string>)
    requires from <= |git.checks| && PassedOnce(listed, git.checks, from) && AllClean(git.checks, from)
    modifies git`checks
    ensures |old(git.checks)| <= |git.checks| && git.checks[..|old(git.checks)|] == old(git.checks)
    ensures PassedOnce(now, git.checks, from)
    ensures clean <==> AllClean(git.checks, from)
    ensures clean ==> forall f :: f in now <==> f in listed || f in batch
    ensures !clean ==> now == listed
  {
    clean := true;
    var i := 0;
    while i < |batch|
      invariant 0 <= i <= |batch|
      invariant |old(git.checks)| <= |git.checks| && git.checks[..|old(git.checks)|] == old(git.checks)
      invariant clean <==> AllClean(git.checks, from)
      invariant clean ==>
                  forall k :: 0 <= k < i ==>
                                exists c :: from <= c < |git.checks| && git.checks[c] == Check(batch[k], true)
      invariant PassedOnce(listed, git.checks, from)
    {
      ghost var before := git.checks;
      var dirty := git.HasConflictMarkers(batch[i]);
      assert forall c :: 0 <= c < |before| ==> git.checks[c] == before[c];
      assert git.checks[|before|] == Check(batch[i], !dirty);
      if dirty { clean := false; }
      i := i + 1;
    }
    now := listed;
    if !clean { return; }
    var j := 0;
    while j < |batch|
      invariant 0 <= j <= |batch|
      invariant PassedOnce(now, git.checks, from)
      invariant forall f :: f in now <==> f in listed || f in batch[..j]
    {
      if batch[j] !in now { now := now + [batch[j]]; }
      assert batch[..j + 1] == batch[..j] + [batch[j]];
      j := j + 1;
    }
    assert batch[..|batch|] == batch;
  }

  // A clean worktree aligned with the remote branch, or None when a clone or fetch has failed.
  method Prepare(git: Clone, workdirReady: bool) returns (synced: Option<nat>)
    modifies git`rebasing, git`tracking, git`head, git`based, git`remote, git`failures
    ensures !git.rebasing
    ensures synced.None? <==> git.failures != old(git.failures)
    ensures synced.Some? ==> git.head == git.tracking == synced.value
  {
    var ok := true;
    if !workdirReady {
      ok := git.FreshClone();
    } else if git.rebasing {
      git.RebaseAbort();
    }
    if !ok { return None; }
    synced := git.FetchAndSync();
  }

  // ----------------------------------------------------------------- one pause

  // What a pause comes to: the files in conflict, the engine's call, whether all files are clean,
  // the staging if one was tried, and git's next step if it took one.
  datatype Pause = Pause(files: seq<string>, call: Call, clean: bool, staged: Option<Staging>, step: Option<RebaseStep>)

  predicate Answers(call: Call) {
    call.Called? && call.ok
  }

  // Each part of a pause needs the one before it; an engine that has ended the rebase itself
  // leaves nothing to stage.
  ghost predicate InTurn(p: Pause) {
    && p.files != []
    && (p.clean ==> Answers(p.call))
    && (p.staged.Some? <==> p.clean && p.call.rebasing)
    && (p.staged.Some? ==> p.staged.value.files == p.files)
    && (p.step.Some? <==> p.staged.Some? && p.staged.value.ok)
  }

  // The branch is ready to be pushed.
  ghost predicate Done(p: Pause) {
    Answers(p.call) && p.clean && (p.call.rebasing ==> p.step.Some? && p.step.value.Clean?)
  }

  // What else the attempt can end with.
  ghost predicate EndsWith(p: Pause, outcome: Outcome) {
    match outcome
    case AgentFailed => !Answers(p.call)
    case StillConflicted => Answers(p.call) && !p.clean
    case Error => p.staged.Some? && !p.staged.value.ok
    case RebaseAborted => p.step == Some(Stopped)
    case Threw => p.step == Some(StepThrew)
    case _ => false
  }

  ghost predicate GoesOn(p: Pause) {
    p.step.Some? && p.step.value.Conflicts?
  }

  function Optional<T>(x: Option<T>): seq<T> {
    match x case None => [] case Some(v) => [v]
  }

  // Stages the files and continues, unless the engine has ended the rebase itself; a failed
  // staging aborts it.
  method StageAndContinue(git: Clone, files: seq<string>) returns (staged: Option<Staging>, step: Option<RebaseStep>)
    modifies git`rebasing, git`head, git`based, git`steps, git`stagings
    ensures staged.Some? <==> old(git.rebasing)
    ensures staged.Some? ==> staged.value.files == files
    ensures step.Some? <==> staged.Some? && staged.value.ok
    ensures git.steps == old(git.steps) + Optional(step) && git.stagings == old(git.stagings) + Optional(staged)
    ensures step == Some(StepThrew) || (git.rebasing <==> step.Some? && step.value.Conflicts?)
    ensures step.Some? && step.value.Conflicts? ==> step.value.files != []
    ensures step == Some(Clean) ==> git.based
    ensures staged == None ==> git.based == old(git.based)
  {
    staged, step := None, None;
    if !git.rebasing { return; }
    var added := git.AddPaths(files);
    staged := Some(Staging(files, added));
    if !added {
      git.RebaseAbort();
      return;
    }
    var taken := git.GitRebase();
    step := Some(taken);
  }

  // One pause of the rebase: the engine is asked, the files are checked, staged, and the rebase
  // goes on.
  method ResolvePause(git: Clone, files: seq<string>, listed: seq<string>, ghost from: nat)
    returns (p: Pause, now: seq<string>)
    requires from <= |git.checks| && PassedOnce(listed, git.checks, from) && AllClean(git.checks, from) && files != []
    modifies git`calls, git`head, git`rebasing, git`based, git`remote, git`checks
    modifies git`steps, git`stagings
    ensures InTurn(p) && p.files == files
    ensures git.calls == old(git.calls) + [p.call]
    ensures git.steps == old(git.steps) + Optional(p.step) && git.stagings == old(git.stagings) + Optional(p.staged)
    ensures GoesOn(p) ==> p.step.value.files != []
    ensures p.step != Some(StepThrew) ==> (git.rebasing <==> GoesOn(p))
    ensures Done(p) ==> (git.based <==> p.call.rebasing || p.call.based)
    ensures |old(git.checks)| <= |git.checks| && git.checks[..|old(git.checks)|] == old(git.checks)
    ensures PassedOnce(now, git.checks, from)
    ensures AllClean(git.checks, from) <==> Answers(p.call) ==> p.clean
    ensures forall f :: f in now <==> f in listed || (p.clean && f in files)
  {
    now := listed;
    var call := git.Engine();
    if !Answers(call) {
      git.RebaseAbort();
      return Pause(files, call, false, None, None), now;
    }
    var clean;
    clean, now := CheckBatch(git, files, listed, from);
    if !clean {
      git.RebaseAbort();
      return Pause(files, call, false, None, None), now;
    }
    var staged, step := StageAndContinue(git, files);
    p := Pause(files, call, true, staged, step);
  }

  // ------------------------------------------------------------- all the pauses

  // The logs of an attempt since `from`, as a story of pauses that all went on but the last.
  datatype Logs = Logs(calls: seq<Call>, stagings: seq<Staging>, steps: seq<RebaseStep>)

  ghost function LogsOf(git: Clone): Logs
    reads git
  {
    Logs(git.calls, git.stagings, git.steps)
  }

  function After(logs: Logs, ps: seq<Pause>): Logs {
    if ps == [] then logs
    else
      var l, p := After(logs, ps[..|ps| - 1]), ps[|ps| - 1];
      Logs(l.calls + [p.call], l.stagings + Optional(p.staged), l.steps + Optional(p.step))
  }

  // The files in conflict after these pauses, as long as the rebase goes on.
  ghost function Next(files: seq<string>, ps: seq<Pause>): seq<string> {
    if ps == [] then files
    else if GoesOn(ps[|ps| - 1]) then ps[|ps| - 1].step.value.files
    else []
  }

  // In order from the first conflicts: each pause is about what the one before it led to.
  ghost predicate Chain(files: seq<string>, ps: seq<Pause>) {
    ps == [] || (var front, last := ps[..|ps| - 1], ps[|ps| - 1];
                 Chain(files, front) && InTurn(last) && last.files == Next(files, front))
  }

  // The files of the pauses that were resolved.
  function Resolved(ps: seq<Pause>): set<string> {
    if ps == [] then {}
    else
      var last := ps[|ps| - 1];
      Resolved(ps[..|ps| - 1]) + if last.clean then set f | f in last.files else {}
  }

  lemma OneMorePause(files: seq<string>, logs: Logs, ps: seq<Pause>, p: Pause)
    requires Chain(files, ps) && InTurn(p) && p.files == Next(files, ps)
    ensures Chain(files, ps + [p])
    ensures var l, more := After(logs, ps), Optional(p.step);
            After(logs, ps + [p]) == Logs(l.calls + [p.call], l.stagings + Optional(p.staged), l.steps + more)
    ensures Resolved(ps + [p]) == Resolved(ps) + if p.clean then set f | f in p.files else {}
  {
    assert (ps + [p])[..|ps|] == ps;
  }

  // What the attempt has pushed: once, when the last pause left the branch ready, over the
  // commit it had synced to; the base is in it unless that pause's call ended the rebase
  // without it.  Otherwise it has tried nothing.
  ghost predicate PushedOnce(before: seq<Push>, pushes: seq<Push>, synced: nat, last: Pause, accepted: bool) {
    && |pushes| == |before| + 1 && before <= pushes
    && var push := pushes[|before|];
       && push.expected == synced && push.accepted == accepted && (accepted ==> push.found == synced)
       && last.call.Called? && (push.based <==> last.call.rebasing || last.call.based)
  }

  // What a pause comes to for the attempt: the push when the branch is ready, nothing when the
  // rebase goes on, and an outcome otherwise.
  method EndPause(git: Clone, p: Pause, synced: nat) returns (end: Option<Outcome>)
    requires InTurn(p) && (Done(p) ==> (git.based <==> p.call.rebasing || p.call.based))
    modifies git`remote, git`pushes
    ensures end.None? <==> GoesOn(p)
    ensures Done(p) <==> end == Some(Rebased) || end == Some(PushFailed)
    ensures if Done(p) then PushedOnce(old(git.pushes), git.pushes, synced, p, end == Some(Rebased))
            else git.pushes == old(git.pushes) && (end.Some? ==> EndsWith(p, end.value))
  {
    if !Answers(p.call) { return Some(AgentFailed); }
    if !p.clean { return Some(StillConflicted); }
    if p.staged.Some? && !p.staged.value.ok { return Some(Error); }
    if p.step.None? || p.step.value.Clean? {
      assert Done(p);
      var pushed := git.ForcePushWithLease(synced);
      return Some(if pushed then Rebased else PushFailed);
    }
    end := match p.step.value
      case Stopped => Some(RebaseAborted)
      case StepThrew => Some(Threw)
      case Conflicts(_) => None;
  }

  // How the pauses `ps` and the pushes make the outcome.
  ghost predicate Explains(files: seq<string>, ps: seq<Pause>, maxSteps: nat, synced: nat,
                           before: seq<Push>, pushes: seq<Push>, outcome: Outcome) {
    && Chain(files, ps) && |ps| <= maxSteps
    && (if ps != [] && Done(ps[|ps| - 1]) then
          && (outcome == Rebased || outcome == PushFailed)
          && PushedOnce(before, pushes, synced, ps[|ps| - 1], outcome == Rebased)
        else
          && pushes == before
          && if |ps| == maxSteps && Next(files, ps) != [] then outcome == MaxAttempts
             else ps != [] && EndsWith(ps[|ps| - 1], outcome))
  }

  // Where the attempt is after the pauses `ps`, with `listed` resolved.
  ghost predicate StandsAt(git: Clone, files: seq<string>, logs: Logs, ps: seq<Pause>, listed: seq<string>, from: nat)
    reads git
  {
    && Chain(files, ps) && LogsOf(git) == After(logs, ps)
    && from <= |git.checks| && PassedOnce(listed, git.checks, from)
    && forall f :: f in listed <==> f in Resolved(ps)
  }

  // One pause more, and what it comes to.
  method NextPause(git: Clone, batch: seq<string>, listed: seq<string>, synced: nat,
                   ghost files: seq<string>, ghost logs: Logs, ghost ps: seq<Pause>, ghost from: nat)
    returns (end: Option<Outcome>, p: Pause, now: seq<string>)
    requires StandsAt(git, files, logs, ps, listed, from) && AllClean(git.checks, from)
    requires batch != [] && batch == Next(files, ps)
    modifies git`remote, git`head, git`rebasing, git`based
    modifies git`pushes, git`calls, git`steps, git`stagings, git`checks
    ensures StandsAt(git, files, logs, ps + [p], now, from)
    ensures AllClean(git.checks, from) <==> end != Some(StillConflicted)
    ensures end.None? <==> GoesOn(p)
    ensures end.None? ==> git.rebasing && p.step.value.files == Next(files, ps + [p]) != []
    ensures end.Some? && end.value != Threw ==> !git.rebasing
    ensures Answers(p.call) <==> end != Some(AgentFailed)
    ensures Done(p) <==> end == Some(Rebased) || end == Some(PushFailed)
    ensures if Done(p) then PushedOnce(old(git.pushes), git.pushes, synced, p, end == Some(Rebased))
            else git.pushes == old(git.pushes) && (end.Some? ==> EndsWith(p, end.value))
  {
    p, now := ResolvePause(git, batch, listed, from);
    OneMorePause(files, logs, ps, p);
    end := EndPause(git, p, synced);
  }

  // From the first conflicts on.
  method ResolvePauses(git: Clone, files: seq<string>, synced: nat, maxSteps: nat)
    returns (outcome: Outcome, resolved: seq<string>, runs: nat, ghost ps: seq<Pause>)
    requires git.rebasing && files != []
    modifies git`remote, git`head, git`rebasing, git`based
    modifies git`pushes, git`calls, git`steps, git`stagings, git`checks
    ensures Explains(files, ps, maxSteps, synced, old(git.pushes), git.pushes, outcome)
    ensures LogsOf(git) == After(old(LogsOf(git)), ps)
    ensures runs == |ps| - if outcome == AgentFailed then 1 else 0
    ensures outcome != Threw ==> !git.rebasing
    ensures PassedOnce(resolved, git.checks, |old(git.checks)|)
    ensures outcome == StillConflicted <==> !AllClean(git.checks, |old(git.checks)|)
    ensures forall f :: f in resolved <==> f in Resolved(ps)
  {
    ghost var from, logs := |git.checks|, LogsOf(git);
    resolved, runs, ps := [], 0, [];
    var batch, i := files, 0;
    while i < maxSteps
      invariant 0 <= i <= maxSteps && runs == i == |ps|
      invariant StandsAt(git, files, logs, ps, resolved, from) && AllClean(git.checks, from)
      invariant batch == Next(files, ps) && batch != [] && git.rebasing
      invariant git.pushes == old(git.pushes)
    {
      var end, p;
      end, p, resolved := NextPause(git, batch, resolved, synced, files, logs, ps, from);
      assert (ps + [p])[..|ps|] == ps;
      ps := ps + [p];
      if Answers(p.call) { runs := runs + 1; }
      if end.Some? { return end.value, resolved, runs, ps; }
      batch := p.step.value.files;
      i := i + 1;
    }
    git.RebaseAbort();
    outcome := MaxAttempts;
  }

  // The outcome tells the whole story.  When a clone or fetch fails nothing is done; a first
  // rebase that goes through needs no push; and from the first conflicts on the pauses, each
  // with its call, staging and step in turn, say what the outcome is, and that exactly one push
  // is tried when, and only when, the last of them leaves the branch ready.  At most `maxSteps`
  // calls; no rebase left in progress, short of a git status that throws; exactly the files of
  // the resolved pauses are listed, each once, and were found free of markers.
  method AttemptRebaseResolve(git: Clone, workdirReady: bool, maxSteps: nat)
    returns (outcome: Outcome, resolved: seq<string>, runs: nat, synced: Option<nat>,
             ghost first: Option<RebaseStep>, ghost ps: seq<Pause>)
    modifies git
    ensures first.Some? <==> synced.Some?
    ensures synced.Some? <==> git.failures == old(git.failures)
    ensures synced.Some? ==> git.tracking == synced.value
    ensures LogsOf(git) == After(Logs(old(git.calls), old(git.stagings), old(git.steps) + Optional(first)), ps)
    ensures if first.Some? && first.value.Conflicts?
            then Explains(first.value.files, ps, maxSteps, synced.value, old(git.pushes), git.pushes, outcome)
            else ps == [] && git.pushes == old(git.pushes)
    ensures first == None <==> outcome == Error && ps == []
    ensures first == Some(Clean) <==> outcome == NoConflicts
    ensures first == Some(Stopped) ==> outcome == RebaseAborted
    ensures first == Some(StepThrew) ==> outcome == Threw
    ensures outcome in {Rebased, PushFailed} <==> ps != [] && Done(ps[|ps| - 1])
    ensures |ps| <= maxSteps && runs == |ps| - if outcome == AgentFailed then 1 else 0
    ensures outcome != Threw ==> !git.rebasing
    ensures PassedOnce(resolved, git.checks, |old(git.checks)|)
    ensures outcome == StillConflicted <==> !AllClean(git.checks, |old(git.checks)|)
    ensures forall f :: f in resolved <==> f in Resolved(ps)
  {
    resolved, runs, synced, first, ps := [], 0, None, None, [];
    synced := Prepare(git, workdirReady);
    if synced.None? { return Error, resolved, runs, synced, first, ps; }
    var step := git.GitRebase();
    first := Some(step);
    match step {
      case Clean => return NoConflicts, resolved, runs, synced, first, ps;
      case Stopped => return RebaseAborted, resolved, runs, synced, first, ps;
      case StepThrew => return Threw, resolved, runs, synced, first, ps;
      case Conflicts(files) => outcome, resolved, runs, ps := ResolvePauses(git, files, synced.value, maxSteps);
    }
  }
}
