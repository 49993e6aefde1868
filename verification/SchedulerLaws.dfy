/**
 What the events of draining and stopping promise, in the words of the code (src/scheduler/index.ts:
 235-360, src/scheduler/worker.ts:36-205, src/scheduler/queue.ts:26-90).
 */
module SchedulerLaws {
  import opened Wrappers
  import opened TaskQueue
  import opened Shutdown
  import CrashRecovery

  // The repo's worker is the known one, or a new one.
  ghost predicate WorkerOf(s: State, after: State, repo: nat, w: nat) {
    && after.workers == s.workers[repo := w]
    && (repo in s.workers ==> w == s.workers[repo] && after.nextWorker == s.nextWorker)
    && (repo !in s.workers ==> w == s.nextWorker && after.nextWorker == s.nextWorker + 1)
  }

  // Unless stopped, firing starts a drain of the repo on its worker, when that is idle.
  lemma FiredDrain(s: State, repo: nat)
    ensures var after := Step(s, FireDrain(repo));
            if s.stopped then after == s
            else && repo in after.workers && WorkerOf(s, after, repo, after.workers[repo])
                 && var w := after.workers[repo];
                    if w in s.busy then after == s.(workers := after.workers, nextWorker := after.nextWorker)
                    else after == s.(workers := after.workers, nextWorker := after.nextWorker,
                                     busy := s.busy + {w}, drains := s.drains[w := Drain(repo, None, None)])
  {
  }

  // A drain without a task takes a pending one of its repo, which is then running.
  lemma TakenTask(s: State, w: nat, id: nat)
    ensures var after := Step(s, Take(w, id));
            if w in s.drains && s.drains[w].task == None && s.drains[w].call == None
               && id in s.tasks && s.tasks[id].status == Pending && s.tasks[id].repo == s.drains[w].repo
            then after == s.(tasks := s.tasks[id := s.tasks[id].(status := Running)],
                             drains := s.drains[w := Drain(s.drains[w].repo, Some(id), None)])
            else after == s
  {
  }

  // Engine calls belong to a task in hand, one at a time, each with a run row while it lasts.
  lemma CalledEngine(s: State, w: nat)
    requires w in s.drains
    ensures var after, d := Step(s, BeginCall(w)), s.drains[w];
            if d.task.Some? && d.call.None?
            then after == s.(open := s.open + {s.nextRun}, nextRun := s.nextRun + 1,
                             drains := s.drains[w := d.(call := Some(s.nextRun))])
            else after == s
    ensures var after, d := Step(s, EndCall(w)), s.drains[w];
            if d.call.Some? then after == s.(open := s.open - {d.call.value}, drains := s.drains[w := d.(call := None)])
            else after == s
  {
  }

  // A finished task is done, with its next date; or pending again after the delay, with its
  // error; or pending as it was.
  lemma FinishedTask(s: State, w: nat, ending: Ending, id: nat)
    requires w in s.drains && s.drains[w].task == Some(id) && s.drains[w].call == None && id in s.tasks
    ensures var after, t := Step(s, Finish(w, ending)), s.tasks[id];
            && after == s.(tasks := s.tasks[id := after.tasks[id]], drains := s.drains[w := s.drains[w].(task := None)])
            && (ending.Done? ==>
                  after.tasks[id] == t.(status := Status.Done, lastRun := Some(ending.at), nextDue := ending.due,
                                        lastError := None))
            && (ending.Error? ==>
                  after.tasks[id] == t.(status := Pending, lastError := Some(ending.message),
                                        nextDue := Some(ending.at + ending.retryIn)))
            && (ending.Requeued? ==> after.tasks[id] == t.(status := Pending))
  {
  }

  lemma UnfinishedTask(s: State, w: nat, ending: Ending)
    requires w !in s.drains || s.drains[w].task == None || s.drains[w].call.Some?
    ensures Step(s, Finish(w, ending)) == s
  {
  }

  // A drain ends with nothing in hand, and its worker is idle; the other activities start and
  // end; what is stopped stays stopped, and starts no reconcile.
  lemma OtherEvents(s: State, w: nat)
    ensures Step(s, EndDrain(w))
            == if w in s.drains && s.drains[w].task == None && s.drains[w].call == None
               then s.(drains := s.drains - {w}, busy := s.busy - {w}) else s
    ensures Step(s, ReconcileStarts) == if s.stopped then s else s.(reconciling := true)
    ensures Step(s, ReconcileEnds) == s.(reconciling := false)
    ensures Step(s, ActivityStarts) == s.(activities := s.activities + 1)
    ensures Step(s, ActivityEnds) == if s.activities == 0 then s else s.(activities := s.activities - 1)
    ensures Step(s, Stop) == s.(stopped := true)
  {
  }

  lemma QueuedTask(s: State, id: nat, priority: Priority, due: Option<int>)
    ensures Step(s, Enqueue(id, priority, due))
            == if id in s.tasks
               then s.(tasks := s.tasks[id := s.tasks[id].(status := Pending, priority := priority, nextDue := due)])
               else s
  {
  }

  // A status page leaves exactly the watched repos in the map, the known ones with their worker.
  lemma PageOfWorkers(s: State, watched: seq<nat>, repo: nat)
    requires forall r :: r in s.workers ==> s.workers[r] < s.nextWorker
    ensures var after := Step(s, Statuses(watched));
            && after == s.(workers := after.workers, nextWorker := after.nextWorker)
            && (repo in after.workers <==> repo in watched)
            && (repo in watched && repo in s.workers ==> after.workers[repo] == s.workers[repo])
            && (repo in watched && repo !in s.workers ==> s.nextWorker <= after.workers[repo] < after.nextWorker)
  {
    EnsuringHires(s, watched);
    OnlyWatched(s, watched, repo);
  }

  lemma {:induction false} OnlyWatched(s: State, repos: seq<nat>, repo: nat)
    ensures repo in EnsuredAll(s, repos).workers <==> repo in s.workers || repo in repos
  {
    if repos != [] { OnlyWatched(s, repos[..|repos| - 1], repo); }
  }

  // Somebody is busy when a known worker is, or the reconcile, or an activity; the process
  // starts with none of that, its tasks swept.
  lemma WhoIsBusy(s: State, tasks: Table, now: int)
    ensures AnyBusy(s) <==>
              (exists repo :: repo in s.workers && s.workers[repo] in s.busy) || s.reconciling || s.activities > 0
    ensures Boot(tasks, now) == State(CrashRecovery.Swept(tasks, now), map[], {}, map[], {}, 0, 0, false, false, 0)
  {
  }
}
