/**
 Draining, stopping and booting again (src/scheduler/index.ts:235-360, src/scheduler/worker.ts:36-205,
 src/supervisor/index.ts:102-165): a stop that reports idle leaves nothing for the next boot's
 crash recovery to reset.

 Workers are objects: dropping one from the map of known workers does not end its drain.
 */
module Shutdown {
  import opened Wrappers
  import opened TaskQueue
  import CrashRecovery

  // One drainRepo in flight: the task taken from the queue and the engine call it awaits.
  datatype Drain = Drain(repo: nat, task: Option<nat>, call: Option<nat>)

  // `workers` maps repos to worker objects, `busy` holds the objects whose flag is set, and
  // `open` the run rows in status running.
  datatype State = State(
    tasks: Table,
    workers: map<nat, nat>,
    busy: set<nat>,
    drains: map<nat, Drain>,
    open: set<nat>,
    nextWorker: nat,
    nextRun: nat,
    stopped: bool,
    reconciling: bool,
    activities: nat)

  function Boot(tasks: Table, now: int): State {
    State(CrashRecovery.Swept(tasks, now), map[], {}, map[], {}, 0, 0, false, false, 0)
  }

  datatype Ending = Done(due: Option<int>, at: int) | Error(message: string, at: int, retryIn: int) | Requeued

  datatype Event =
    | FireDrain(repo: nat)
    | Take(worker: nat, id: nat)
    | BeginCall(caller: nat)
    | EndCall(called: nat)
    | Finish(finished: nat, ending: Ending)
    | EndDrain(ended: nat)
    | Enqueue(queued: nat, priority: Priority, due: Option<int>)
    | ReconcileStarts
    | ReconcileEnds
    | ActivityStarts
    | ActivityEnds
    | Statuses(watched: seq<nat>)
    | Stop

  function Ensured(s: State, repo: nat): State {
    if repo in s.workers then s
    else s.(workers := s.workers[repo := s.nextWorker], nextWorker := s.nextWorker + 1)
  }

  function EnsuredAll(s: State, repos: seq<nat>): (after: State)
    ensures after == s.(workers := after.workers, nextWorker := after.nextWorker)
    ensures forall repo :: repo in repos ==> repo in after.workers
  {
    if repos == [] then s else Ensured(EnsuredAll(s, repos[..|repos| - 1]), repos[|repos| - 1])
  }

  // A status page: newly watched repos get a worker, and the others are dropped from the map.
  function StatusesStep(s: State, watched: seq<nat>): State {
    var t := EnsuredAll(s, watched);
    t.(workers := map repo | repo in t.workers && repo in watched :: t.workers[repo])
  }

  // The part of tickDrain that concerns one watched repo.
  function FireStep(s: State, repo: nat): State {
    if s.stopped then s
    else
      var t := Ensured(s, repo);
      var w := t.workers[repo];
      if w in t.busy then t
      else t.(busy := t.busy + {w}, drains := t.drains[w := Drain(repo, None, None)])
  }

  predicate Free(s: State, w: nat) {
    w in s.drains && s.drains[w].task == None && s.drains[w].call == None
  }

  function TakeStep(s: State, w: nat, id: nat): State {
    if !Free(s, w) || id !in s.tasks || s.tasks[id].status != Pending || s.tasks[id].repo != s.drains[w].repo then s
    else s.(tasks := s.tasks[id := s.tasks[id].(status := Running)],
            drains := s.drains[w := s.drains[w].(task := Some(id))])
  }

  function EndedTask(tasks: Table, id: nat, e: Ending): Table {
    match e
    case Done(due, at) =>
      if id !in tasks then tasks
      else tasks[id := tasks[id].(status := Status.Done, lastRun := Some(at), nextDue := due, lastError := None)]
    case Error(m, at, retryIn) =>
      if id !in tasks then tasks
      else tasks[id := tasks[id].(status := Pending, lastError := Some(m), nextDue := Some(at + retryIn))]
    case Requeued => TaskQueue.Requeued(tasks, id)
  }

  function Step(s: State, e: Event): State {
    match e
    case FireDrain(repo) => FireStep(s, repo)
    case Take(w, id) => TakeStep(s, w, id)
    case BeginCall(w) =>
      if w !in s.drains || s.drains[w].task == None || s.drains[w].call.Some? then s
      else s.(open := s.open + {s.nextRun}, nextRun := s.nextRun + 1,
              drains := s.drains[w := s.drains[w].(call := Some(s.nextRun))])
    case EndCall(w) =>
      if w !in s.drains || s.drains[w].call == None then s
      else s.(open := s.open - {s.drains[w].call.value}, drains := s.drains[w := s.drains[w].(call := None)])
    case Finish(w, ending) =>
      if w !in s.drains || s.drains[w].task == None || s.drains[w].call.Some? then s
      else s.(tasks := EndedTask(s.tasks, s.drains[w].task.value, ending),
              drains := s.drains[w := s.drains[w].(task := None)])
    case EndDrain(w) => if Free(s, w) then s.(drains := s.drains - {w}, busy := s.busy - {w}) else s
    case Enqueue(id, priority, due) => s.(tasks := Enqueued(s.tasks, id, priority, due))
    case ReconcileStarts => if s.stopped then s else s.(reconciling := true)
    case ReconcileEnds => s.(reconciling := false)
    case ActivityStarts => s.(activities := s.activities + 1)
    case ActivityEnds => if s.activities > 0 then s.(activities := s.activities - 1) else s
    case Statuses(watched) => StatusesStep(s, watched)
    case Stop => s.(stopped := true)
  }

  function Run(s: State, es: seq<Event>): State
    decreases |es|
  {
    if es == [] then s else Run(Step(s, es[0]), es[1..])
  }

  // anyWorkerBusy: what stop() waits for.
  predicate AnyBusy(s: State) {
    || (exists repo :: repo in s.workers && s.workers[repo] in s.busy)
    || s.reconciling
    || s.activities > 0
  }

  // The fixed watched set: a status page never drops a repo whose worker is busy.
  ghost predicate KeepsBusy(s: State, e: Event) {
    e.Statuses? ==> forall w :: w in s.drains ==> s.drains[w].repo in e.watched
  }

  ghost predicate Fixed(s: State, es: seq<Event>)
    decreases |es|
  {
    es == [] || (KeepsBusy(s, es[0]) && Fixed(Step(s, es[0]), es[1..]))
  }

  // --------------------------------------------------------------- invariant

  ghost predicate TaskOwned(s: State, id: nat) {
    id in s.tasks && s.tasks[id].status == Running ==> exists w :: w in s.drains && s.drains[w].task == Some(id)
  }

  ghost predicate CallOwned(s: State, run: nat) {
    run in s.open ==> exists w :: w in s.drains && s.drains[w].call == Some(run)
  }

  // Whatever is marked running belongs to a drain in flight; holds however the map of workers
  // is treated.
  ghost predicate Owned(s: State) {
    && s.busy == s.drains.Keys
    && (forall w :: w in s.drains ==> w < s.nextWorker)
    && (forall repo :: repo in s.workers ==> s.workers[repo] < s.nextWorker)
    && (forall id: nat :: TaskOwned(s, id))
    && (forall run: nat :: CallOwned(s, run))
  }

  // Each drain's worker is the one its repo is known by.
  ghost predicate Known(s: State) {
    && (forall w :: w in s.drains ==> s.drains[w].repo in s.workers && s.workers[s.drains[w].repo] == w)
    && (forall a, b :: a in s.workers && b in s.workers && s.workers[a] == s.workers[b] ==> a == b)
  }

  // What the drain had in hand is no longer open, or its worker still has it.
  ghost predicate Accounted(after: State, w: nat, was: Drain) {
    && (was.task.Some? ==> !TaskRuns(after, was.task.value) || TakenBy(after, w, was.task.value))
    && (was.call.Some? ==> was.call.value !in after.open || CalledBy(after, w, was.call.value))
  }

  lemma OwnersKept(s: State, after: State)
    requires Owned(s)
    requires after.busy == after.drains.Keys && after.nextWorker >= s.nextWorker
    requires forall w :: w in after.drains ==> w < after.nextWorker
    requires forall repo :: repo in after.workers ==> after.workers[repo] < after.nextWorker
    requires forall w :: w in s.drains ==>
                           || (w in after.drains && after.drains[w] == s.drains[w])
                           || Accounted(after, w, s.drains[w])
    requires forall id: nat :: TaskRuns(after, id) ==> TaskRuns(s, id) || exists w :: TakenBy(after, w, id)
    requires forall run: nat :: run in after.open ==> run in s.open || exists w :: CalledBy(after, w, run)
    ensures Owned(after)
  {
    forall id: nat
      ensures TaskOwned(after, id)
    {
      assert TaskOwned(s, id);
      if TaskRuns(after, id) && TaskRuns(s, id) {
        var w :| w in s.drains && s.drains[w].task == Some(id);
        assert TakenBy(after, w, id);
      }
    }
    forall run: nat
      ensures CallOwned(after, run)
    {
      assert CallOwned(s, run);
      if run in after.open && run in s.open {
        var w :| w in s.drains && s.drains[w].call == Some(run);
        assert CalledBy(after, w, run);
      }
    }
  }

  ghost predicate TaskRuns(s: State, id: nat) {
    id in s.tasks && s.tasks[id].status == Running
  }

  ghost predicate TakenBy(s: State, w: nat, id: nat) {
    w in s.drains && s.drains[w].task == Some(id)
  }

  ghost predicate CalledBy(s: State, w: nat, run: nat) {
    w in s.drains && s.drains[w].call == Some(run)
  }

  // Known workers stay, and new ones get new ids.
  ghost predicate Hires(s: State, after: State) {
    && s.nextWorker <= after.nextWorker
    && (forall repo :: repo in s.workers ==> repo in after.workers && after.workers[repo] == s.workers[repo])
    && (forall repo :: repo in after.workers && repo !in s.workers ==>
          s.nextWorker <= after.workers[repo] < after.nextWorker)
    && (forall a, b :: a in after.workers && b in after.workers && a != b && after.workers[a] == after.workers[b] ==>
          a in s.workers && b in s.workers)
  }

  lemma {:induction false} EnsuringHires(s: State, repos: seq<nat>)
    requires forall repo :: repo in s.workers ==> s.workers[repo] < s.nextWorker
    ensures Hires(s, EnsuredAll(s, repos))
  {
    if repos != [] { EnsuringHires(s, repos[..|repos| - 1]); }
  }

  lemma StatusesKeepOwned(s: State, watched: seq<nat>)
    requires Owned(s)
    ensures Owned(StatusesStep(s, watched))
  {
    EnsuringHires(s, watched);
    OwnersKept(s, StatusesStep(s, watched));
  }

  lemma FireKeepsOwned(s: State, repo: nat)
    requires Owned(s)
    ensures Owned(FireStep(s, repo))
  {
    OwnersKept(s, FireStep(s, repo));
  }

  lemma TakeKeepsOwned(s: State, w: nat, id: nat)
    requires Owned(s)
    ensures Owned(TakeStep(s, w, id))
  {
    var after := TakeStep(s, w, id);
    if after != s {
      assert TakenBy(after, w, id);
      OwnersKept(s, after);
    }
  }

  lemma CallKeepsOwned(s: State, e: Event)
    requires Owned(s) && (e.BeginCall? || e.EndCall?)
    ensures Owned(Step(s, e))
  {
    var after := Step(s, e);
    if after != s {
      var w := if e.BeginCall? then e.caller else e.called;
      if s.drains[w].task.Some? { assert TakenBy(after, w, s.drains[w].task.value); }
      if e.BeginCall? { assert CalledBy(after, w, s.nextRun); }
      OwnersKept(s, after);
    }
  }

  lemma FinishKeepsOwned(s: State, w: nat, ending: Ending)
    requires Owned(s)
    ensures Owned(Step(s, Finish(w, ending)))
  {
    OwnersKept(s, Step(s, Finish(w, ending)));
  }

  lemma StepKeepsOwned(s: State, e: Event)
    requires Owned(s)
    ensures Owned(Step(s, e))
  {
    match e {
      case FireDrain(repo) => FireKeepsOwned(s, repo);
      case Take(w, id) => TakeKeepsOwned(s, w, id);
      case BeginCall(_) => CallKeepsOwned(s, e);
      case EndCall(_) => CallKeepsOwned(s, e);
      case Finish(w, ending) => FinishKeepsOwned(s, w, ending);
      case Statuses(watched) => StatusesKeepOwned(s, watched);
      case _ => OwnersKept(s, Step(s, e));
    }
  }

  lemma FireKeepsKnown(s: State, repo: nat)
    requires Owned(s) && Known(s)
    ensures Known(FireStep(s, repo))
  {
  }

  // Steps that leave the map of workers alone and keep or end drains.
  lemma SameWorkersKeepKnown(s: State, after: State)
    requires Known(s) && after.workers == s.workers
    requires forall w :: w in after.drains ==> w in s.drains && after.drains[w].repo == s.drains[w].repo
    ensures Known(after)
  {
  }

  lemma SlotsKeepKnown(s: State, e: Event)
    requires Known(s) && (e.Take? || e.BeginCall? || e.EndCall? || e.Finish?)
    ensures Known(Step(s, e))
  {
    SameWorkersKeepKnown(s, Step(s, e));
  }

  lemma StatusesKeepKnown(s: State, watched: seq<nat>)
    requires Owned(s) && Known(s) && KeepsBusy(s, Statuses(watched))
    ensures Known(Step(s, Statuses(watched)))
  {
    EnsuringHires(s, watched);
  }

  lemma StepKeepsKnown(s: State, e: Event)
    requires Owned(s) && Known(s) && KeepsBusy(s, e)
    ensures Known(Step(s, e))
  {
    match e {
      case FireDrain(repo) => FireKeepsKnown(s, repo);
      case Statuses(watched) => StatusesKeepKnown(s, watched);
      case Take(_, _) => SlotsKeepKnown(s, e);
      case BeginCall(_) => SlotsKeepKnown(s, e);
      case EndCall(_) => SlotsKeepKnown(s, e);
      case Finish(_, _) => SlotsKeepKnown(s, e);
      case EndDrain(w) => SameWorkersKeepKnown(s, Step(s, e));
      case _ => assert Step(s, e).workers == s.workers && Step(s, e).drains == s.drains;
    }
  }

  lemma {:induction false} RunKeepsOwned(s: State, es: seq<Event>)
    requires Owned(s)
    ensures Owned(Run(s, es))
    ensures Known(s) && Fixed(s, es) ==> Known(Run(s, es))
    decreases |es|
  {
    if es != [] {
      StepKeepsOwned(s, es[0]);
      if Known(s) && KeepsBusy(s, es[0]) { StepKeepsKnown(s, es[0]); }
      RunKeepsOwned(Step(s, es[0]), es[1..]);
    }
  }

  // -------------------------------------------------------------- theorems

  // Nothing for crash recovery to do.
  ghost predicate CleanlyDown(s: State) {
    s.drains == map[] && s.open == {} && forall now :: CrashRecovery.Swept(s.tasks, now) == s.tasks
  }

  lemma NoDrainsNothingRuns(s: State)
    requires Owned(s) && s.drains == map[]
    ensures CleanlyDown(s)
  {
    forall id | id in s.tasks
      ensures s.tasks[id].status != Running
    {
      assert TaskOwned(s, id);
    }
    forall run: nat
      ensures run !in s.open
    {
      assert CallOwned(s, run);
    }
  }

  lemma {:induction false} StaysDown(s: State, es: seq<Event>)
    requires Owned(s) && s.stopped && s.drains == map[]
    ensures Run(s, es).stopped && Owned(Run(s, es)) && Run(s, es).drains == map[]
    decreases |es|
  {
    if es != [] {
      StepKeepsOwned(s, es[0]);
      StaysDown(Step(s, es[0]), es[1..]);
    }
  }

  // With a fixed watched set: at most one drain per repo is ever in flight.
  lemma OneDrainPerRepo(tasks: Table, now: int, es: seq<Event>, v: nat, w: nat)
    requires Fixed(Boot(tasks, now), es)
    requires var s := Run(Boot(tasks, now), es);
             v in s.drains && w in s.drains && s.drains[v].repo == s.drains[w].repo
    ensures v == w
  {
    BootIsOwned(tasks, now);
    RunKeepsOwned(Boot(tasks, now), es);
  }

  lemma BootIsOwned(tasks: Table, now: int)
    ensures Owned(Boot(tasks, now)) && Known(Boot(tasks, now))
  {
    CrashRecovery.NothingRunsAfterASweep(tasks, now);
  }

  lemma DrainIsSeen(s: State, w: nat)
    requires Owned(s) && Known(s) && w in s.drains
    ensures AnyBusy(s)
  {
    assert s.workers[s.drains[w].repo] in s.busy;
  }

  // Once stop() has seen nobody busy, then and ever after no drain is in flight, nothing is
  // marked running, and the next boot's sweep changes no task and no run.
  lemma CleanShutdownTheorem(tasks: Table, now: int, es: seq<Event>, more: seq<Event>)
    requires Fixed(Boot(tasks, now), es)
    requires Run(Boot(tasks, now), es).stopped && !AnyBusy(Run(Boot(tasks, now), es))
    ensures CleanlyDown(Run(Run(Boot(tasks, now), es), more))
  {
    BootIsOwned(tasks, now);
    RunKeepsOwned(Boot(tasks, now), es);
    var s := Run(Boot(tasks, now), es);
    forall w
      ensures w !in s.drains
    {
      if w in s.drains { DrainIsSeen(s, w); }
    }
    assert s.drains == map[];
    StaysDown(s, more);
    NoDrainsNothingRuns(Run(s, more));
  }

  // ------------------------------------------------ the condition on status pages

  lemma {:induction false} RunSplits(s: State, es: seq<Event>, fs: seq<Event>)
    ensures Run(s, es + fs) == Run(Run(s, es), fs)
    ensures Fixed(s, es + fs) <==> Fixed(s, es) && Fixed(Run(s, es), fs)
    decreases |es|
  {
    if es == [] {
      assert es + fs == fs;
    } else {
      assert (es + fs)[1..] == es[1..] + fs;
      RunSplits(Step(s, es[0]), es[1..], fs);
    }
  }

  lemma RunOneMore(s: State, es: seq<Event>, e: Event)
    ensures Run(s, es + [e]) == Step(Run(s, es), e)
    ensures Fixed(s, es + [e]) <==> Fixed(s, es) && KeepsBusy(Run(s, es), e)
  {
    RunSplits(s, es, [e]);
    assert [e][1..] == [];
    assert Fixed(Step(Run(s, es), e), []);
    assert Run(Step(Run(s, es), e), []) == Step(Run(s, es), e);
  }

  // A drain whose worker no repo is known by.
  ghost predicate Lost(s: State, w: nat) {
    w in s.drains && s.busy == s.drains.Keys && forall repo :: repo in s.workers ==> s.workers[repo] != w
  }

  // The other drains end one after the other, whatever they have in hand.
  lemma EndOne(s: State, v: nat) returns (es: seq<Event>)
    requires v in s.drains && s.busy == s.drains.Keys
    ensures Fixed(s, es)
    ensures var after := Run(s, es);
            && after.drains == s.drains - {v} && after.busy == s.busy - {v}
            && after.workers == s.workers && after.stopped == s.stopped
  {
    es := [EndCall(v)] + [Finish(v, Requeued)] + [EndDrain(v)];
    RunOneMore(s, [], EndCall(v));
    assert [] + [EndCall(v)] == [EndCall(v)];
    RunOneMore(s, [EndCall(v)], Finish(v, Requeued));
    RunOneMore(s, [EndCall(v)] + [Finish(v, Requeued)], EndDrain(v));
    DrainUnwinds(s, v);
  }

  lemma DrainUnwinds(s: State, v: nat)
    requires v in s.drains && s.busy == s.drains.Keys
    ensures var after := Step(Step(Step(s, EndCall(v)), Finish(v, Requeued)), EndDrain(v));
            && after.drains == s.drains - {v} && after.busy == s.busy - {v}
            && after.workers == s.workers && after.stopped == s.stopped
  {
    var answered := Step(s, EndCall(v));
    assert answered.drains == s.drains[v := s.drains[v].(call := None)];
    var finished := Step(answered, Finish(v, Requeued));
    assert finished.drains == s.drains[v := s.drains[v].(call := None, task := None)];
    assert finished.drains - {v} == s.drains - {v};
  }

  lemma {:induction false} EndOthers(s: State, w: nat) returns (es: seq<Event>)
    requires Lost(s, w)
    ensures Fixed(s, es)
    ensures var after := Run(s, es); Lost(after, w) && after.drains.Keys == {w} && after.stopped == s.stopped
    decreases |s.drains.Keys|
  {
    if s.drains.Keys - {w} == {} {
      es := [];
      assert s.drains.Keys == {w};
    } else {
      var v :| v in s.drains.Keys - {w};
      var first := EndOne(s, v);
      var next := Run(s, first);
      assert next.drains.Keys == s.drains.Keys - {v};
      var rest := EndOthers(next, w);
      es := first + rest;
      RunSplits(s, first, rest);
    }
  }

  lemma {:induction false} EndActivities(s: State, w: nat) returns (es: seq<Event>)
    requires Lost(s, w) && s.drains.Keys == {w}
    ensures Fixed(s, es)
    ensures var after := Run(s, es);
            && Lost(after, w) && after.drains.Keys == {w} && after.stopped == s.stopped
            && after.activities == 0 && !after.reconciling
    decreases s.activities
  {
    if s.activities == 0 {
      es := [] + [ReconcileEnds];
      RunOneMore(s, [], ReconcileEnds);
    } else {
      var rest := EndActivities(Step(s, ActivityEnds), w);
      es := [ActivityEnds] + rest;
      assert es[1..] == rest;
    }
  }

  // Stop, and everything else comes to its end: nobody looks busy, and the drain is there.
  lemma LostDrainIsMissed(s: State, w: nat) returns (es: seq<Event>)
    requires Lost(s, w)
    ensures Fixed(s, es)
    ensures var after := Run(s, es); after.stopped && !AnyBusy(after) && w in after.drains
  {
    RunOneMore(s, [], Stop);
    assert [] + [Stop] == [Stop];
    var stopped := Run(s, [Stop]);
    var others := EndOthers(stopped, w);
    var alone := Run(stopped, others);
    var quiet := EndActivities(alone, w);
    es := [Stop] + (others + quiet);
    RunSplits(stopped, others, quiet);
    RunSplits(s, [Stop], others + quiet);
  }

  // An idle stop with a drain in flight, in a run that drops no further busy repo.
  ghost predicate Misses(s: State, es: seq<Event>) {
    Fixed(s, es) && Run(s, es).stopped && !AnyBusy(Run(s, es)) && Run(s, es).drains != map[]
  }

  // The watched set has to keep every busy repo, and that is exact: after a status page, no
  // continuation has an idle stop miss a drain exactly when the page dropped no busy repo.
  lemma HiddenIff(s: State, watched: seq<nat>)
    requires Owned(s) && Known(s)
    ensures (forall es: seq<Event> :: !Misses(Step(s, Statuses(watched)), es)) <==> KeepsBusy(s, Statuses(watched))
  {
    var after := Step(s, Statuses(watched));
    StepKeepsOwned(s, Statuses(watched));
    if KeepsBusy(s, Statuses(watched)) {
      StepKeepsKnown(s, Statuses(watched));
      forall es: seq<Event>
        ensures !Misses(after, es)
      {
        if Fixed(after, es) { IdleMeansDown(after, es); }
      }
    } else {
      var w :| w in s.drains && s.drains[w].repo !in watched;
      DroppedIsLost(s, watched, w);
      var es := LostDrainIsMissed(after, w);
      assert Misses(after, es);
    }
  }

  // Whatever worker its repo gets later is another one.
  lemma DroppedIsLost(s: State, watched: seq<nat>, w: nat)
    requires Owned(s) && Known(s) && w in s.drains && s.drains[w].repo !in watched
    ensures Lost(StatusesStep(s, watched), w)
  {
    EnsuringHires(s, watched);
  }

  lemma IdleMeansDown(s: State, es: seq<Event>)
    requires Owned(s) && Known(s) && Fixed(s, es)
    ensures !AnyBusy(Run(s, es)) ==> Run(s, es).drains == map[]
  {
    RunKeepsOwned(s, es);
    var after := Run(s, es);
    if after.drains.Keys != {} {
      var w :| w in after.drains;
      DrainIsSeen(after, w);
    }
  }

  // A hidden drain with a task in hand is what the next boot mistakes for a crash.
  lemma HiddenTaskIsReset(s: State, w: nat, now: int)
    requires Owned(s) && w in s.drains && s.drains[w].task.Some?
    requires TaskRuns(s, s.drains[w].task.value)
    ensures var gone := Step(Step(s, Stop), Statuses([]));
            && (!s.reconciling && s.activities == 0 ==> !AnyBusy(gone))
            && CrashRecovery.Swept(gone.tasks, now) != gone.tasks
  {
    var id := s.drains[w].task.value;
    assert CrashRecovery.Swept(s.tasks, now)[id].status != Running;
  }

  // From boot: one drain takes one task, a status page drops its repo, and the stop is idle.
  lemma ResetFromBoot(tasks: Table, now: int, id: nat)
    requires id in tasks && tasks[id].status == Pending
    ensures var es := [FireDrain(tasks[id].repo)] + [Take(0, id)] + [Stop] + [Statuses([])];
            var s := Run(Boot(tasks, now), es);
            && s.stopped && !AnyBusy(s) && TaskRuns(s, id)
            && CrashRecovery.Swept(s.tasks, now)[id].status != Running
  {
    var fire, take := FireDrain(tasks[id].repo), Take(0, id);
    var s0 := Boot(tasks, now);
    RunOneMore(s0, [], fire);
    assert [] + [fire] == [fire];
    RunOneMore(s0, [fire], take);
    RunOneMore(s0, [fire] + [take], Stop);
    RunOneMore(s0, [fire] + [take] + [Stop], Statuses([]));
    var fired := Step(s0, fire);
    assert fired.drains == map[0 := Drain(tasks[id].repo, None, None)];
    assert TaskRuns(Step(fired, take), id);
  }
}
