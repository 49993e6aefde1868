/**
 The per-repo tick lease (src/director/active-tick.ts:48-114): one row per repo, acquired by
 insert or by taking over an expired row, and released by deleting whatever row is there.
 */
module Lease {
  import opened Wrappers

  // `owner` is history: the body whose acquisition wrote the row.
  datatype Row = Row(started: int, ttl: nat, owner: nat)

  // A body run under the lease, in any process.
  datatype Body = Body(repo: nat, started: int, ttl: nat)

  datatype State = State(rows: map<nat, Row>, bodies: map<nat, Body>, nextBody: nat, clock: int)

  const EMPTY := State(map[], map[], 0, 0)

  predicate Fresh(r: Row, now: int) {
    r.started + r.ttl > now
  }

  // Whether tryAcquireTick succeeds: the insert finds no row, or the update finds a stale one.
  predicate CanAcquire(rows: map<nat, Row>, repo: nat, now: int) {
    repo !in rows || rows[repo].started + rows[repo].ttl <= now
  }

  datatype Event = Acquire(repo: nat, ttl: nat) | Release(body: nat) | Abandon(dead: nat) | Pass(seconds: nat)

  function Step(s: State, e: Event): State {
    match e
    case Acquire(repo, ttl) =>
      if !CanAcquire(s.rows, repo, s.clock) then s
      else s.(rows := s.rows[repo := Row(s.clock, ttl, s.nextBody)],
              bodies := s.bodies[s.nextBody := Body(repo, s.clock, ttl)],
              nextBody := s.nextBody + 1)
    case Release(b) =>
      if b !in s.bodies then s else s.(rows := s.rows - {s.bodies[b].repo}, bodies := s.bodies - {b})
    case Abandon(b) => s.(bodies := s.bodies - {b})
    case Pass(seconds) => s.(clock := s.clock + seconds)
  }

  function Run(s: State, es: seq<Event>): State
    decreases |es|
  {
    if es == [] then s else Run(Step(s, es[0]), es[1..])
  }

  // Every body still running is within its ttl.
  predicate InTime(s: State) {
    forall b :: b in s.bodies ==> s.clock < s.bodies[b].started + s.bodies[b].ttl
  }

  ghost predicate Punctual(s: State, es: seq<Event>)
    decreases |es|
  {
    InTime(s) && (es == [] || Punctual(Step(s, es[0]), es[1..]))
  }

  // The row of its repo is the body's own.
  ghost predicate Holds(s: State, b: nat)
    requires b in s.bodies
  {
    var body := s.bodies[b];
    body.repo in s.rows && s.rows[body.repo] == Row(body.started, body.ttl, b)
  }

  ghost predicate AllHold(s: State) {
    forall b :: b in s.bodies ==> b < s.nextBody && Holds(s, b)
  }

  lemma StepKeepsHolding(s: State, e: Event)
    requires AllHold(s) && InTime(s)
    ensures AllHold(Step(s, e))
  {
    var after := Step(s, e);
    forall b | b in after.bodies
      ensures b < after.nextBody && Holds(after, b)
    {
      assert b in s.bodies ==> Holds(s, b);
    }
  }

  lemma {:induction false} RunKeepsHolding(s: State, es: seq<Event>)
    requires AllHold(s) && Punctual(s, es)
    ensures AllHold(Run(s, es)) && InTime(Run(s, es))
    decreases |es|
  {
    if es != [] {
      StepKeepsHolding(s, es[0]);
      RunKeepsHolding(Step(s, es[0]), es[1..]);
    }
  }

  // When every body releases before its ttl is over: at most one holder per repo, and a
  // release removes exactly the releasing body's own row.
  lemma LeaseTheorem(es: seq<Event>, a: nat, b: nat)
    requires Punctual(EMPTY, es)
    requires a in Run(EMPTY, es).bodies && b in Run(EMPTY, es).bodies
    ensures var s := Run(EMPTY, es);
            && (s.bodies[a].repo == s.bodies[b].repo ==> a == b)
            && var repo := s.bodies[a].repo;
               repo in s.rows && s.rows[repo].owner == a && Step(s, Release(a)).rows == s.rows - {repo}
  {
    RunKeepsHolding(EMPTY, es);
    assert Holds(Run(EMPTY, es), a) && Holds(Run(EMPTY, es), b);
  }

  // The limit is exact: while a body runs, a second holder can get in after a pause exactly
  // when the pause outlasts its ttl.
  lemma SecondHolderIff(s: State, b: nat, pause: nat, ttl: nat)
    requires AllHold(s) && b in s.bodies
    ensures var late := Step(s, Pass(pause));
            var after := Step(late, Acquire(s.bodies[b].repo, ttl));
            (b in after.bodies && late.nextBody in after.bodies && after.bodies[late.nextBody].repo == s.bodies[b].repo)
            <==> s.clock + pause >= s.bodies[b].started + s.bodies[b].ttl
  {
    assert Holds(s, b);
  }

  // The release is not fenced: the late body deletes its successor's row, and a third one
  // gets in beside the successor.
  lemma OverrunLosesTheRow(ttl: nat)
    requires ttl > 0
    ensures var s1 := Step(Step(Step(EMPTY, Acquire(0, ttl)), Pass(ttl)), Acquire(0, ttl));
            var s := Step(Step(s1, Release(0)), Acquire(0, ttl));
            1 in s.bodies && 2 in s.bodies && s.bodies[1].repo == s.bodies[2].repo == 0
  {
    var s0 := Step(EMPTY, Acquire(0, ttl));
    assert s0.rows == map[0 := Row(0, ttl, 0)] && s0.bodies == map[0 := Body(0, 0, ttl)];
    var s1 := Step(Step(s0, Pass(ttl)), Acquire(0, ttl));
    assert s1.rows == map[0 := Row(ttl, ttl, 1)] && 0 in s1.bodies && 1 in s1.bodies && s1.nextBody == 2;
    assert s1.bodies[0].repo == 0;
    var s2 := Step(s1, Release(0));
    assert 0 !in s2.rows && 1 in s2.bodies;
  }

  // A crash leaves the row behind; from started + ttl on, and not before, it can be taken over.
  lemma {:induction false} AbandonedIsReclaimable(s: State, es: seq<Event>, repo: nat)
    requires repo in s.rows
    requires forall i :: 0 <= i < |es| ==> es[i].Pass? || es[i].Abandon?
    ensures var after := Run(s, es);
            repo in after.rows && after.rows[repo] == s.rows[repo]
            && (CanAcquire(after.rows, repo, after.clock) <==> after.clock >= s.rows[repo].started + s.rows[repo].ttl)
    decreases |es|
  {
    if es != [] { AbandonedIsReclaimable(Step(s, es[0]), es[1..], repo); }
  }

  // ------------------------------------------------------------------ the table

  class ActiveTicks {
    var rows: map<nat, Row>

    constructor ()
      ensures rows == map[]
    {
      rows := map[];
    }

    // The row only while it is fresh.
    method GetActiveTick(repo: nat, now: int) returns (active: Option<Row>)
      ensures active.Some? <==> !CanAcquire(rows, repo, now)
      ensures active.Some? ==> repo in rows && active.value == rows[repo] && Fresh(active.value, now)
    {
      if repo in rows && Fresh(rows[repo], now) { return Some(rows[repo]); }
      active := None;
    }

    // INSERT OR IGNORE, then UPDATE ... WHERE expired.
    method TryAcquireTick(repo: nat, now: int, ttl: nat, body: nat) returns (acquired: bool)
      modifies this
      ensures acquired <==> CanAcquire(old(rows), repo, now)
      ensures acquired ==> rows == old(rows)[repo := Row(now, ttl, body)]
      ensures !acquired ==> rows == old(rows)
    {
      if repo !in rows {
        rows := rows[repo := Row(now, ttl, body)];
        return true;
      }
      if !Fresh(rows[repo], now) {
        rows := rows[repo := Row(now, ttl, body)];
        return true;
      }
      acquired := false;
    }

    method ReleaseTick(repo: nat)
      modifies this
      ensures rows == old(rows) - {repo}
    {
      rows := rows - {repo};
    }

    // What a caller sees and what it would get agree at every instant.
    method TickOrSkip(repo: nat, now: int, ttl: nat, body: nat) returns (shown: Option<Row>, acquired: bool)
      modifies this
      ensures shown.Some? <==> !acquired
      ensures shown.Some? ==> repo in old(rows) && shown.value == old(rows)[repo] && rows == old(rows)
    {
      shown := GetActiveTick(repo, now);
      acquired := TryAcquireTick(repo, now, ttl, body);
    }

    // withActiveTick: `during` is what the table has become when the body ends, by returning or
    // by throwing.  The body runs exactly when the lease could be taken, and then whatever row
    // the repo has at its end is gone, be it the body's own or not.
    method WithActiveTick(repo: nat, now: int, ttl: nat, body: nat, during: map<nat, Row>) returns (ran: bool)
      modifies this
      ensures ran <==> CanAcquire(old(rows), repo, now)
      ensures rows == if ran then during - {repo} else old(rows)
    {
      ran := TryAcquireTick(repo, now, ttl, body);
      if !ran { return; }
      rows := during;
      ReleaseTick(repo);
    }
  }
}
