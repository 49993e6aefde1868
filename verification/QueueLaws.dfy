/**
 What the queue operations and the boot sweep promise of a task, in the words of the statements
 (src/scheduler/queue.ts:26-90, src/scheduler/index.ts:64-87).
 */
module QueueLaws {
  import opened Wrappers
  import opened TaskQueue
  import opened CrashRecovery

  // Waiting, and its time has come.
  ghost predicate Ready(t: Task, now: int, repo: Option<nat>) {
    t.status == Pending && (t.nextDue.Some? ==> t.nextDue.value <= now) && (repo.Some? ==> t.repo == repo.value)
  }

  // One that nothing of its own priority is to be preferred to: no date before any date, an
  // earlier date before a later one, and the smaller id on a tie.
  ghost predicate InTime(tasks: Table, picked: nat, other: nat)
    requires picked in tasks && other in tasks
  {
    var t, u := tasks[picked], tasks[other];
    && (u.nextDue.None? ==> t.nextDue.None?)
    && (t.nextDue.Some? && u.nextDue.Some? ==> t.nextDue.value <= u.nextDue.value)
    && (t.nextDue == u.nextDue ==> picked <= other)
  }

  // What a dequeue picks is ready; nothing high waits behind another priority, nothing normal
  // behind a low one; and within the priority it is in time.  One is picked when one is ready.
  lemma PickedIsNext(tasks: Table, now: int, repo: Option<nat>, picked: nat, other: nat)
    requires IsNext(tasks, now, repo, picked) && other in tasks && Ready(tasks[other], now, repo)
    ensures picked in tasks && Ready(tasks[picked], now, repo)
    ensures tasks[other].priority == High ==> tasks[picked].priority == High
    ensures tasks[other].priority == Normal ==> tasks[picked].priority != Low
    ensures tasks[other].priority == tasks[picked].priority ==> InTime(tasks, picked, other)
  {
    assert Due(tasks[other], now, repo);
    assert other != picked ==> Precedes(tasks, picked, other);
  }

  lemma NothingReady(tasks: Table, now: int, repo: Option<nat>)
    ensures NothingDue(tasks, now, repo) <==> forall id :: id in tasks ==> !Ready(tasks[id], now, repo)
  {
    assert forall id :: id in tasks ==> (Due(tasks[id], now, repo) <==> Ready(tasks[id], now, repo));
  }

  // Only the row of the id changes, and of it only these columns.
  ghost predicate OnlyRow(before: Table, after: Table, id: nat) {
    && after.Keys == before.Keys
    && (forall j :: j in before && j != id ==> after[j] == before[j])
    && (id in before ==> after[id].repo == before[id].repo && after[id].lastRun == before[id].lastRun)
  }

  lemma EnqueuedRow(tasks: Table, id: nat, priority: Priority, due: Option<int>)
    ensures var after := Enqueued(tasks, id, priority, due);
            && OnlyRow(tasks, after, id)
            && (id in tasks ==>
                  && after[id].status == Pending && after[id].priority == priority && after[id].nextDue == due
                  && after[id].lastError == tasks[id].lastError)
  {
  }

  lemma RequeuedRow(tasks: Table, id: nat)
    ensures var after := Requeued(tasks, id);
            && OnlyRow(tasks, after, id)
            && (id in tasks ==>
                  && after[id].status == Pending && after[id].priority == tasks[id].priority
                  && after[id].nextDue == tasks[id].nextDue && after[id].lastError == tasks[id].lastError)
  {
  }

  // ---------------------------------------------------------------- the boot sweep

  // A task that was running is abandoned for a day when its error text has three stamps or more,
  // and is otherwise put first in the queue, stamped; the others are left alone.
  lemma SweptTask(tasks: Table, now: int, id: nat)
    requires id in tasks
    ensures id in Swept(tasks, now)
    ensures var t, after := tasks[id], Swept(tasks, now)[id];
            && after.repo == t.repo && after.lastRun == t.lastRun
            && (t.status != Running ==> after == t)
            && (t.status == Running ==>
                  var stamped := t.lastError.Some? && Occurrences(t.lastError.value) >= 3;
                  if stamped then
                    && after.status == Done && after.priority == t.priority && after.nextDue == Some(now + 86400)
                    && after.lastError.Some? && t.lastError.value < after.lastError.value
                  else
                    && after.status == Pending && after.priority == High && after.nextDue == None
                    && after.lastError.Some? && |after.lastError.value| <= 1024)
  {
    if tasks[id].lastError.Some? { StampCountIsOccurrences(tasks[id].lastError.value); }
  }

  lemma SweepKeepsTasks(tasks: Table, now: int)
    ensures Swept(tasks, now).Keys == tasks.Keys
  {
  }

  // Between two boots a task is queued, taken and put back as the queue operations do it.
  lemma CrashEvents(tasks: Table, id: nat, priority: Priority, due: Option<int>, now: int)
    requires id in tasks
    ensures Step(tasks, Dequeue(id)) == tasks[id := tasks[id].(status := Running)]
    ensures Step(tasks, Enqueue(id, priority, due))
            == tasks[id := tasks[id].(status := Pending, priority := priority, nextDue := due)]
    ensures Step(tasks, RequeuePaused(id)) == tasks[id := tasks[id].(status := Pending)]
    ensures Step(tasks, CrashRecovery.Boot(now)) == Swept(tasks, now)
  {
  }

  // The stamp is what the count looks for, and is appended whole as long as it fits.
  lemma StampOfAReset(before: Option<string>)
    ensures Restamped(None) == "[crash recovery: was running at shutdown]"
    ensures before.Some? && |before.value| <= 1024 - 44 ==>
              Restamped(before) == before.value + " | " + "[crash recovery: was running at shutdown]"
    ensures before.Some? ==> Restamped(before) <= before.value + " | " + "[crash recovery: was running at shutdown]"
  {
    assert STAMP == "[crash recovery: was running at shutdown]";
    assert |JOINED| == 44;
    if before.Some? {
      assert before.value + JOINED == before.value + " | " + "[crash recovery: was running at shutdown]";
    }
  }
}
