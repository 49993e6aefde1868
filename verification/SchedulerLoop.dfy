/**
 tickDrain and stop as loops over the scheduler's fields (src/scheduler/index.ts:235-360).
 What other code does while stop() sleeps is a script of events of the state machine in
 Shutdown.  The fields are always what the trace since boot leads to.
 */
module SchedulerLoop {
  import opened Wrappers
  import opened TaskQueue
  import opened Shutdown
  import CrashRecovery

  function Fires(watched: seq<nat>): seq<Event> {
    seq(|watched|, i requires 0 <= i < |watched| => FireDrain(watched[i]))
  }

  function Flat(script: seq<seq<Event>>): seq<Event> {
    if script == [] then [] else Flat(script[..|script| - 1]) + script[|script| - 1]
  }

  // Somebody was busy at the k-th look.
  ghost predicate BusyAt(s: State, script: seq<seq<Event>>, k: nat)
    requires k <= |script|
  {
    AnyBusy(Run(s, Flat(script[..k])))
  }

  class Scheduler {
    var tasks: Table
    var workers: map<nat, nat>
    var busy: set<nat>
    var drains: map<nat, Drain>
    var open: set<nat>
    var nextWorker: nat
    var nextRun: nat
    var stopped: bool
    var reconciling: bool
    var activities: nat
    ghost const db: Table
    ghost const booted: int
    ghost var trace: seq<Event>

    ghost predicate Valid()
      reads this
    {
      View() == Run(Boot(db, booted), trace)
    }

    function View(): State
      reads this
    {
      State(tasks, workers, busy, drains, open, nextWorker, nextRun, stopped, reconciling, activities)
    }

    constructor (db: Table, now: int)
      ensures Valid() && trace == [] && this.db == db && booted == now
    {
      this.db, booted, trace := db, now, [];
      tasks := CrashRecovery.Swept(db, now);
      workers, busy, drains, open := map[], {}, map[], {};
      nextWorker, nextRun, stopped, reconciling, activities := 0, 0, false, false, 0;
    }

    // Events enter the trace; the fields have yet to follow.
    ghost method Happened(es: seq<Event>)
      requires Valid()
      modifies this`trace
      ensures trace == old(trace) + es && Run(Boot(db, booted), trace) == Run(View(), es)
    {
      RunSplits(Boot(db, booted), trace, es);
      trace := trace + es;
    }

    method EnsureWorker(repo: nat) returns (w: nat)
      modifies this`workers, this`nextWorker
      ensures View() == Ensured(old(View()), repo)
      ensures repo in workers && w == workers[repo]
    {
      if repo !in workers {
        workers := workers[repo := nextWorker];
        nextWorker := nextWorker + 1;
      }
      w := workers[repo];
    }

    method FireDrainFor(repo: nat) returns (wasBusy: bool)
      requires !stopped
      modifies this`workers, this`nextWorker, this`busy, this`drains
      ensures View() == Step(old(View()), FireDrain(repo))
      ensures old(busy) <= busy && (wasBusy <==> busy == old(busy))
    {
      var w := EnsureWorker(repo);
      wasBusy := w in busy;
      if !wasBusy {
        busy := busy + {w};
        drains := drains[w := Drain(repo, None, None)];
      }
    }

    // One drain per watched repo whose worker is idle.  `busyFlag` is what the caller sees: set
    // when stopped, or when there are watched repos and all their workers were busy.
    method TickDrain(watched: seq<nat>) returns (busyFlag: bool)
      requires Valid()
      modifies this
      ensures Valid() && trace == old(trace) + Fires(watched)
      ensures old(busy) <= busy && stopped == old(stopped)
      ensures busyFlag <==> stopped || (watched != [] && busy == old(busy))
    {
      ghost var start := View();
      Happened(Fires(watched));
      if stopped {
        StoppedFiresNothing(start, Fires(watched));
        return true;
      }
      if watched == [] { return false; }
      busyFlag := FireAll(watched);
    }

    method FireAll(watched: seq<nat>) returns (allBusy: bool)
      requires !stopped
      modifies this`workers, this`nextWorker, this`busy, this`drains
      ensures View() == Run(old(View()), Fires(watched))
      ensures old(busy) <= busy && (allBusy <==> busy == old(busy))
    {
      allBusy := true;
      ghost var start := View();
      var i := 0;
      while i < |watched|
        invariant 0 <= i <= |watched| && !stopped
        invariant start.busy <= busy && (allBusy <==> busy == start.busy)
        invariant View() == Run(start, Fires(watched)[..i])
      {
        var wasBusy := FireDrainFor(watched[i]);
        allBusy := allBusy && wasBusy;
        RunOneMore(start, Fires(watched)[..i], FireDrain(watched[i]));
        assert Fires(watched)[..i + 1] == Fires(watched)[..i] + [FireDrain(watched[i])];
        i := i + 1;
      }
      assert Fires(watched)[..|watched|] == Fires(watched);
    }

    // The status page refreshes the map of workers.
    method WorkerStatuses(watched: seq<nat>)
      requires Valid()
      modifies this
      ensures Valid() && trace == old(trace) + [Statuses(watched)] && busy == old(busy) && drains == old(drains)
      ensures forall repo :: repo in workers <==> repo in watched
    {
      ghost var start := View();
      Happened([Statuses(watched)]);
      OnlyStatuses(start, watched);
      EnsureWorkers(watched);
      workers := map repo | repo in workers && repo in watched :: workers[repo];
    }

    method EnsureWorkers(repos: seq<nat>)
      modifies this`workers, this`nextWorker
      ensures View() == EnsuredAll(old(View()), repos)
    {
      ghost var start := View();
      var i := 0;
      while i < |repos|
        invariant 0 <= i <= |repos| && View() == EnsuredAll(start, repos[..i])
      {
        assert repos[..i + 1][..i] == repos[..i];
        var _ := EnsureWorker(repos[i]);
        i := i + 1;
      }
      assert repos[..|repos|] == repos;
    }

    method AnyWorkerBusy() returns (b: bool)
      ensures b <==> AnyBusy(View())
    {
      b := (exists repo :: repo in workers && workers[repo] in busy) || reconciling || activities > 0;
    }

    // Whatever else the process does during one sleep.
    method Sleep(es: seq<Event>)
      requires Valid()
      modifies this
      ensures Valid() && trace == old(trace) + es && View() == Run(old(View()), es)
    {
      var s := Run(View(), es);
      Happened(es);
      Become(s);
    }

    method Become(s: State)
      modifies this`tasks, this`workers, this`busy, this`drains, this`open
      modifies this`nextWorker, this`nextRun, this`stopped, this`reconciling, this`activities
      ensures View() == s
    {
      tasks, workers, busy, drains, open := s.tasks, s.workers, s.busy, s.drains, s.open;
      nextWorker, nextRun, stopped := s.nextWorker, s.nextRun, s.stopped;
      reconciling, activities := s.reconciling, s.activities;
    }

    // Polls until nobody is busy or the timeout, here the length of the script, is over.
    method StopAll(script: seq<seq<Event>>) returns (idle: bool, polls: nat)
      requires Valid()
      modifies this
      ensures Valid() && polls <= |script| && trace == old(trace) + [Stop] + Flat(script[..polls])
      ensures stopped && (idle <==> !AnyBusy(View()))
      ensures !idle ==> polls == |script|
      ensures forall k :: 0 <= k < polls ==> BusyAt(Run(old(View()), [Stop]), script, k)
    {
      Sleep([Stop]);
      ghost var before, start := trace, View();
      StoppedByStop(old(View()));
      polls := 0;
      assert before + Flat(script[..0]) == before;
      var b := AnyWorkerBusy();
      while b
        invariant polls <= |script| && stopped
        invariant Valid() && trace == before + Flat(script[..polls])
        invariant b <==> AnyBusy(View())
        invariant View() == Run(start, Flat(script[..polls]))
        invariant forall k :: 0 <= k < polls ==> BusyAt(start, script, k)
        decreases |script| - polls
      {
        if polls == |script| { return false, polls; }
        StopStops(View(), script[polls]);
        assert BusyAt(start, script, polls);
        OnePollMore(start, before, script, polls);
        Sleep(script[polls]);
        polls := polls + 1;
        b := AnyWorkerBusy();
      }
      idle := true;
    }
  }

  lemma OnePollMore(s: State, before: seq<Event>, script: seq<seq<Event>>, k: nat)
    requires k < |script|
    ensures before + Flat(script[..k]) + script[k] == before + Flat(script[..k + 1])
    ensures Run(Run(s, Flat(script[..k])), script[k]) == Run(s, Flat(script[..k + 1]))
  {
    assert script[..k + 1][..k] == script[..k];
    assert Flat(script[..k + 1]) == Flat(script[..k]) + script[k];
    RunSplits(s, Flat(script[..k]), script[k]);
  }

  lemma OnlyStatuses(s: State, watched: seq<nat>)
    ensures Run(s, [Statuses(watched)]) == StatusesStep(s, watched)
    ensures StatusesStep(s, watched).busy == s.busy && StatusesStep(s, watched).drains == s.drains
    ensures forall repo :: repo in StatusesStep(s, watched).workers <==> repo in watched
  {
    RunOneMore(s, [], Statuses(watched));
    assert [] + [Statuses(watched)] == [Statuses(watched)];
  }

  lemma StoppedByStop(s: State)
    ensures Run(s, [Stop]).stopped
  {
    RunOneMore(s, [], Stop);
    assert [] + [Stop] == [Stop];
  }

  // Nothing sets the scheduler going again.
  lemma {:induction false} StopStops(s: State, es: seq<Event>)
    ensures s.stopped ==> Run(s, es).stopped
    decreases |es|
  {
    if es != [] { StopStops(Step(s, es[0]), es[1..]); }
  }

  // An idle scheduler that no status page has cheated has nothing in flight, and its next
  // boot has nothing to recover.
  lemma IdleIsClean(s: Scheduler)
    requires s.Valid() && s.stopped && !AnyBusy(s.View())
    requires Fixed(Boot(s.db, s.booted), s.trace)
    ensures s.drains == map[] && s.open == {} && forall now :: CrashRecovery.Swept(s.tasks, now) == s.tasks
  {
    CleanShutdownTheorem(s.db, s.booted, s.trace, []);
  }

  lemma {:induction false} StoppedFiresNothing(s: State, es: seq<Event>)
    requires s.stopped && forall i :: 0 <= i < |es| ==> es[i].FireDrain?
    ensures Run(s, es) == s
    decreases |es|
  {
    if es != [] { StoppedFiresNothing(s, es[1..]); }
  }
}
