/**
 The task table and its queue operations (src/scheduler/queue.ts).

 A task is keyed by its row id.  Due instants are integers; None is SQL NULL.
 */
module TaskQueue {
  import opened Wrappers

  datatype Priority = High | Normal | Low

  datatype Status = Pending | Running | Done

  datatype Task = Task(
    repo: nat,
    status: Status,
    priority: Priority,
    nextDue: Option<int>,
    lastRun: Option<int>,
    lastError: Option<string>)

  type Table = map<nat, Task>

  // ---------------------------------------------------------------- updates

  // An UPDATE ... WHERE id = ? touches no row when the id is absent.
  function Enqueued(tasks: Table, id: nat, priority: Priority, due: Option<int>): Table {
    if id in tasks
    then tasks[id := tasks[id].(status := Pending, priority := priority, nextDue := due)]
    else tasks
  }

  function Requeued(tasks: Table, id: nat): Table {
    if id in tasks then tasks[id := tasks[id].(status := Pending)] else tasks
  }

  // ---------------------------------------------------------- the due order

  function Rank(p: Priority): nat {
    match p case High => 0 case Normal => 1 case Low => 2
  }

  // `None` asks for any repo, as the unscoped drain does.
  predicate Due(t: Task, now: int, repo: Option<nat>) {
    && t.status == Pending
    && (t.nextDue == None || t.nextDue.value <= now)
    && (repo == None || t.repo == repo.value)
  }

  // ORDER BY priority rank, NULL due first, due, id.
  predicate Precedes(tasks: Table, a: nat, b: nat)
    requires a in tasks && b in tasks
  {
    var ta, tb := tasks[a], tasks[b];
    || Rank(ta.priority) < Rank(tb.priority)
    || (Rank(ta.priority) == Rank(tb.priority) &&
        match (ta.nextDue, tb.nextDue)
        case (None, None) => a < b
        case (None, Some(_)) => true
        case (Some(_), None) => false
        case (Some(x), Some(y)) => x < y || (x == y && a < b))
  }

  predicate IsNext(tasks: Table, now: int, repo: Option<nat>, id: nat) {
    && id in tasks
    && Due(tasks[id], now, repo)
    && forall j :: j in tasks && j != id && Due(tasks[j], now, repo) ==> Precedes(tasks, id, j)
  }

  predicate NothingDue(tasks: Table, now: int, repo: Option<nat>) {
    forall id :: id in tasks ==> !Due(tasks[id], now, repo)
  }

  // Distinct tasks are comparable one way only, and the order is transitive.
  lemma PrecedesIsStrictOrder(tasks: Table, a: nat, b: nat, c: nat)
    requires a in tasks && b in tasks && c in tasks
    ensures !Precedes(tasks, a, a)
    ensures a != b ==> Precedes(tasks, a, b) != Precedes(tasks, b, a)
    ensures Precedes(tasks, a, b) && Precedes(tasks, b, c) ==> Precedes(tasks, a, c)
  {
  }

  // A due task exists exactly when a first one does.
  lemma FirstExists(tasks: Table, now: int, repo: Option<nat>)
    ensures NothingDue(tasks, now, repo) || exists id :: IsNext(tasks, now, repo, id)
  {
    var due := set id | id in tasks && Due(tasks[id], now, repo);
    if due != {} {
      var first := LeastOf(tasks, due);
      assert forall j :: j in tasks && j != first && Due(tasks[j], now, repo) ==> j in due;
      assert IsNext(tasks, now, repo, first);
    } else {
      assert forall id :: id in tasks && Due(tasks[id], now, repo) ==> id in due;
    }
  }

  lemma LeastOf(tasks: Table, s: set<nat>) returns (first: nat)
    requires s != {} && s <= tasks.Keys
    ensures first in s
    ensures forall j :: j in s && j != first ==> Precedes(tasks, first, j)
  {
    var x :| x in s;
    if s - {x} == {} {
      assert s == {x};
      first := x;
    } else {
      var y := LeastOf(tasks, s - {x});
      first := if Precedes(tasks, x, y) then x else y;
      forall j | j in s && j != first
        ensures Precedes(tasks, first, j)
      {
        PrecedesIsStrictOrder(tasks, x, y, j);
        assert j != x ==> j in s - {x};
      }
    }
  }

  // ------------------------------------------------------- draining a batch

  ghost predicate Sorted(tasks: Table, ids: seq<nat>) {
    && (forall i :: 0 <= i < |ids| ==> ids[i] in tasks)
    && (forall i, j :: 0 <= i < j < |ids| ==> Precedes(tasks, ids[i], ids[j]))
  }

  lemma SortedDistinct(tasks: Table, ids: seq<nat>)
    requires Sorted(tasks, ids)
    ensures forall i, j :: 0 <= i < j < |ids| ==> ids[i] != ids[j]
  {
    forall i, j | 0 <= i < j < |ids|
      ensures ids[i] != ids[j]
    {
      assert Precedes(tasks, ids[i], ids[j]);
    }
  }

  // `ids` lists the due tasks of `tasks`, each once, in strictly increasing order.
  ghost predicate IsDueOrder(tasks: Table, now: int, repo: Option<nat>, ids: seq<nat>) {
    && Sorted(tasks, ids)
    && (forall i :: 0 <= i < |ids| ==> Due(tasks[ids[i]], now, repo))
    && (forall id :: id in tasks && Due(tasks[id], now, repo) ==> id in ids)
  }

  // `ids` is a batch of at most `limit` taken in order: nothing due was passed over.
  ghost predicate IsBatch(tasks: Table, now: int, repo: Option<nat>, limit: nat, ids: seq<nat>) {
    && |ids| <= limit
    && Sorted(tasks, ids)
    && (forall i :: 0 <= i < |ids| ==> Due(tasks[ids[i]], now, repo))
    && (forall i, id :: 0 <= i < |ids| && id in tasks && Due(tasks[id], now, repo) && id !in ids
          ==> Precedes(tasks, ids[i], id))
    && (|ids| < limit ==> forall id :: id in tasks && Due(tasks[id], now, repo) ==> id in ids)
  }

  function AllRunning(tasks: Table, ids: seq<nat>): Table {
    map id | id in tasks :: if id in ids then tasks[id].(status := Running) else tasks[id]
  }

  // A batch of n is the first n of the sorted due tasks, whatever list sorts them.
  lemma {:induction false} BatchIsPrefix(tasks: Table, now: int, repo: Option<nat>, limit: nat, ids: seq<nat>,
                                         full: seq<nat>)
    requires IsBatch(tasks, now, repo, limit, ids)
    requires IsDueOrder(tasks, now, repo, full)
    ensures ids == full[..Min(limit, |full|)]
  {
    BatchMatches(tasks, now, repo, limit, ids, full, |ids|);
    SortedDistinct(tasks, full);
    assert forall i :: 0 <= i < |ids| ==> ids[i] == ids[..|ids|][i] && ids[..|ids|][i] == full[..|ids|][i];
    if |ids| < limit {
      assert forall j :: 0 <= j < |full| ==> full[j] in ids;
      if full != [] {
        var j := Min(|ids|, |full| - 1);
        assert full[j] in ids;
      }
    }
  }

  lemma {:induction false} BatchMatches(tasks: Table, now: int, repo: Option<nat>, limit: nat, ids: seq<nat>,
                                        full: seq<nat>, n: nat)
    requires IsBatch(tasks, now, repo, limit, ids)
    requires IsDueOrder(tasks, now, repo, full)
    requires n <= |ids|
    ensures n <= |full| && ids[..n] == full[..n]
  {
    if n > 0 {
      var k := n - 1;
      BatchMatches(tasks, now, repo, limit, ids, full, k);
      assert forall i :: 0 <= i < k ==> ids[i] == ids[..k][i] && full[..k][i] == full[i];
      SameNext(tasks, now, repo, limit, ids, full, k);
      assert ids[..n] == ids[..k] + [ids[k]];
      assert full[..n] == full[..k] + [full[k]];
    }
  }

  // Two enumerations that agree up to k agree at k: neither may pass the other's task over.
  lemma SameNext(tasks: Table, now: int, repo: Option<nat>, limit: nat, ids: seq<nat>, full: seq<nat>, k: nat)
    requires IsBatch(tasks, now, repo, limit, ids)
    requires IsDueOrder(tasks, now, repo, full)
    requires k < |ids| && k <= |full|
    requires forall i :: 0 <= i < k ==> ids[i] == full[i]
    ensures k < |full| && ids[k] == full[k]
  {
    SortedDistinct(tasks, ids);
    SortedDistinct(tasks, full);
    var x := ids[k];
    assert x in tasks && Due(tasks[x], now, repo);
    var p :| 0 <= p < |full| && full[p] == x;
    assert p >= k;
    var y := full[k];
    PrecedesIsStrictOrder(tasks, x, y, y);
    assert y in ids;
    assert forall q :: k < q < |ids| ==> Precedes(tasks, x, ids[q]);
  }

  // The sorted list of due tasks exists, so the prefix law above speaks of every table.
  lemma DueOrderExists(tasks: Table, now: int, repo: Option<nat>) returns (full: seq<nat>)
    ensures IsDueOrder(tasks, now, repo, full)
  {
    var due := set id | id in tasks && Due(tasks[id], now, repo);
    full := SortedList(tasks, due);
    assert forall id :: id in tasks && Due(tasks[id], now, repo) ==> id in due;
    assert forall i :: 0 <= i < |full| ==> full[i] in due;
  }

  lemma {:induction false} SortedList(tasks: Table, s: set<nat>) returns (list: seq<nat>)
    requires s <= tasks.Keys
    ensures Sorted(tasks, list)
    ensures forall id :: id in list <==> id in s
  {
    if s == {} {
      list := [];
    } else {
      var first := LeastOf(tasks, s);
      var rest := SortedList(tasks, s - {first});
      list := [first] + rest;
      assert forall i :: 0 <= i < |rest| ==> rest[i] in rest;
      assert forall j :: 0 < j < |list| ==> list[j] == rest[j - 1];
    }
  }

  // ------------------------------------------------------------- the table

  class TaskTable {
    var tasks: Table

    constructor (rows: Table)
      ensures tasks == rows
    {
      tasks := rows;
    }

    method Enqueue(id: nat, priority: Priority, due: Option<int>)
      modifies this
      ensures tasks == Enqueued(old(tasks), id, priority, due)
    {
      if id in tasks {
        tasks := tasks[id := tasks[id].(status := Pending, priority := priority, nextDue := due)];
      }
    }

    // Pops the first due task and marks it running, in one transaction.
    method Dequeue(now: int, repo: Option<nat>) returns (picked: Option<nat>)
      modifies this
      ensures picked == None ==> NothingDue(old(tasks), now, repo) && tasks == old(tasks)
      ensures picked.Some? ==>
                && IsNext(old(tasks), now, repo, picked.value)
                && tasks == old(tasks)[picked.value := old(tasks)[picked.value].(status := Running)]
    {
      FirstExists(tasks, now, repo);
      if id :| id in tasks && IsNext(tasks, now, repo, id) {
        tasks := tasks[id := tasks[id].(status := Running)];
        picked := Some(id);
      } else {
        picked := None;
      }
    }

    method MarkDone(id: nat, now: int, due: Option<int>)
      modifies this
      ensures tasks.Keys == old(tasks).Keys
      ensures id in tasks ==>
                tasks[id] == old(tasks)[id].(status := Done, lastRun := Some(now), nextDue := due, lastError := None)
      ensures forall j :: j in tasks && j != id ==> tasks[j] == old(tasks)[j]
    {
      if id in tasks {
        tasks := tasks[id := tasks[id].(status := Done, lastRun := Some(now), nextDue := due, lastError := None)];
      }
    }

    method MarkError(id: nat, error: string, now: int, retryIn: int)
      modifies this
      ensures tasks.Keys == old(tasks).Keys
      ensures id in tasks ==>
                var row := old(tasks)[id];
                tasks[id] == row.(status := Pending, lastError := Some(error), nextDue := Some(now + retryIn))
      ensures forall j :: j in tasks && j != id ==> tasks[j] == old(tasks)[j]
    {
      if id in tasks {
        tasks := tasks[id := tasks[id].(status := Pending, lastError := Some(error), nextDue := Some(now + retryIn))];
      }
    }

    method RequeuePaused(id: nat)
      modifies this
      ensures tasks == Requeued(old(tasks), id)
    {
      if id in tasks {
        tasks := tasks[id := tasks[id].(status := Pending)];
      }
    }

    // The dequeues of one drain with nothing interleaved: the worker's loop of at
    // most `limit` rounds that stops at the first empty one.
    method DequeueBatch(now: int, repo: Option<nat>, limit: nat) returns (ids: seq<nat>)
      modifies this
      ensures IsBatch(old(tasks), now, repo, limit, ids)
      ensures tasks == AllRunning(old(tasks), ids)
      ensures forall id :: id in old(tasks) ==>
                             id in tasks && tasks[id] == if id in ids then old(tasks)[id].(status := Running)
                                                         else old(tasks)[id]
      ensures |ids| < limit ==> NothingDue(tasks, now, repo)
    {
      ids := [];
      var i := 0;
      while i < limit
        invariant |ids| == i <= limit
        invariant IsBatch(old(tasks), now, repo, i, ids)
        invariant tasks == AllRunning(old(tasks), ids)
      {
        ghost var before := tasks;
        var picked := Dequeue(now, repo);
        if picked == None {
          assert forall id :: id in old(tasks) && Due(old(tasks)[id], now, repo) && id !in ids ==>
                 Due(before[id], now, repo);
          return;
        }
        assert before[picked.value].status == Pending;
        assert picked.value !in ids;
        BatchGrows(old(tasks), now, repo, ids, picked.value);
        ids := ids + [picked.value];
        i := i + 1;
      }
    }
  }

  lemma BatchGrows(tasks: Table, now: int, repo: Option<nat>, ids: seq<nat>, next: nat)
    requires IsBatch(tasks, now, repo, |ids|, ids)
    requires next !in ids
    requires IsNext(AllRunning(tasks, ids), now, repo, next)
    ensures IsBatch(tasks, now, repo, |ids| + 1, ids + [next])
  {
    var after := AllRunning(tasks, ids);
    var grown := ids + [next];
    assert after[next] == tasks[next];
    forall id | id in tasks && Due(tasks[id], now, repo) && id !in grown
      ensures Precedes(tasks, next, id)
    {
      assert after[id] == tasks[id];
      assert Precedes(after, next, id);
    }
    forall i | 0 <= i < |grown|
      ensures grown[i] in tasks && Due(tasks[grown[i]], now, repo)
    {
      if i < |ids| { assert grown[i] == ids[i]; }
    }
    forall i, j | 0 <= i < j < |grown|
      ensures Precedes(tasks, grown[i], grown[j])
    {
      assert grown[i] == ids[i];
      if j < |ids| { assert grown[j] == ids[j]; }
    }
    forall i, id | 0 <= i < |grown| && id in tasks && Due(tasks[id], now, repo) && id !in grown
      ensures Precedes(tasks, grown[i], id)
    {
      if i < |ids| { assert grown[i] == ids[i]; assert id !in ids; }
    }
  }
}
