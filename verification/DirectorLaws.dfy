/**
 What the lease, the follow-ups, the digest and the cost split promise, in the words of the code
 (src/director/active-tick.ts:48-114, src/director/outcome-followup.ts:25-211,
 src/director/digest.ts:78-179, 239-316, src/director/tick.ts:434-441).
 */
module DirectorLaws {
  import opened Wrappers
  import Lease
  import Followups
  import Digest
  import DecisionPolicy
  import DecisionLedger
  import TickCosts

  // -------------------------------------------------------------------- lease

  // The lease is taken when the repo has no row or one that has run out, and is then the body's;
  // ending a body deletes the repo's row, and a crash leaves it.
  lemma LeaseEvents(s: Lease.State, repo: nat, ttl: nat, b: nat, seconds: nat)
    ensures var after := Lease.Step(s, Lease.Acquire(repo, ttl));
            if repo !in s.rows || s.rows[repo].started + s.rows[repo].ttl <= s.clock
            then && after.rows == s.rows[repo := Lease.Row(s.clock, ttl, s.nextBody)]
                 && after.bodies == s.bodies[s.nextBody := Lease.Body(repo, s.clock, ttl)]
                 && after.nextBody == s.nextBody + 1 && after.clock == s.clock
            else after == s
    ensures b in s.bodies ==>
              Lease.Step(s, Lease.Release(b)) == s.(rows := s.rows - {s.bodies[b].repo}, bodies := s.bodies - {b})
    ensures Lease.Step(s, Lease.Abandon(b)) == s.(bodies := s.bodies - {b})
    ensures Lease.Step(s, Lease.Pass(seconds)) == s.(clock := s.clock + seconds)
  {
  }

  lemma LeaseRuns(s: Lease.State, e: Lease.Event, es: seq<Lease.Event>)
    ensures Lease.Run(s, []) == s && Lease.Run(s, [e] + es) == Lease.Run(Lease.Step(s, e), es)
  {
    assert ([e] + es)[1..] == es;
  }

  // ---------------------------------------------------------------- follow-ups

  // A decision is due for an observation within two weeks of its execution, not within six hours
  // of the last one, and not after one that saw its issue closed.
  lemma DueForObservation(born: map<nat, int>, log: seq<Followups.Obs>, d: nat, now: int)
    ensures Followups.Eligible(born, log, d, now)
            <==> && d in born && born[d] > now - 14 * 24 * 3600
                 && forall i :: 0 <= i < |log| && log[i].decision == d ==>
                      && log[i].kind != Followups.ClosedNoPr && log[i].kind != Followups.MergedViaPr
                      && log[i].at <= now - 6 * 3600
  {
  }

  // What is observed: open, closed as completed by a pull request, closed without one, a pull
  // request instead of an issue, or nothing for an error.
  lemma ObservedKinds()
    ensures Followups.KindOf(Followups.Open) == Followups.IssueOpen
    ensures Followups.KindOf(Followups.Closed(true)) == Followups.MergedViaPr
    ensures Followups.KindOf(Followups.Closed(false)) == Followups.ClosedNoPr
    ensures Followups.KindOf(Followups.IsPr) == Followups.PrOpen
    ensures Followups.KindOf(Followups.Failed) == Followups.FetchError
  {
  }

  // A sweep begins with at most five due decisions when none is in progress; each observation is
  // of the first of what is left, at its time.
  lemma SweepEvents(s: Followups.State, ids: seq<nat>, kind: Followups.Kind, id: nat, ts: int, seconds: nat)
    ensures Followups.Enabled(s, Followups.BeginSweep(ids))
            <==> && s.sweep == [] && |ids| <= 5 && (forall i, j :: 0 <= i < j < |ids| ==> ids[i] != ids[j])
                 && forall i :: 0 <= i < |ids| ==> Followups.Eligible(s.born, s.log, ids[i], s.clock)
    ensures Followups.Enabled(s, Followups.BeginSweep(ids)) ==>
              Followups.Step(s, Followups.BeginSweep(ids)) == s.(sweep := ids, since := s.clock)
    ensures Followups.Step(s, Followups.Observe(kind))
            == if s.sweep == [] then s
               else s.(log := s.log + [Followups.Obs(s.sweep[0], s.since, s.clock, kind)], sweep := s.sweep[1..])
    ensures Followups.Step(s, Followups.NoNumber) == if s.sweep == [] then s else s.(sweep := s.sweep[1..])
    ensures Followups.Step(s, Followups.Executed(id, ts))
            == if id !in s.born && ts <= s.clock then s.(born := s.born[id := ts]) else s
    ensures Followups.Step(s, Followups.Crash) == s.(sweep := [])
    ensures Followups.Step(s, Followups.Pass(seconds)) == s.(clock := s.clock + seconds)
  {
  }

  // The row of a candidate, and that one without an issue number has none.
  lemma SweptRows(cs: seq<Followups.Candidate>, c: Followups.Candidate, picked: int)
    ensures Followups.RowsOf([], picked) == []
    ensures Followups.RowsOf(cs + [c], picked)
            == Followups.RowsOf(cs, picked)
               + if c.hasNumber then [Followups.Obs(c.decision, picked, c.at, Followups.KindOf(c.answer))] else []
  {
    assert (cs + [c])[..|cs|] == cs;
  }

  // -------------------------------------------------------------------- digest

  // A digest starts past the configured hour, once the delay after a failure is over, and not
  // on a date that has had one.
  lemma BegunDigest(s: Digest.State, pastHour: bool)
    requires s.running == None
    ensures var after := Digest.Step(s, Digest.Begin(pastHour));
            if pastHour && (s.next.Some? ==> s.next.value <= s.clock) && s.lastDate != Some(s.date)
            then after == s.(running := Some(Digest.Attempt(s.clock, s.date))) else after == s
  {
  }

  // A posted one settles the date it was started on, and so does an engine that does not support
  // it; a failure is counted, and the next try is due after the delay for that many, from the
  // start of the attempt.
  lemma EndedDigest(s: Digest.State, a: Digest.Attempt, ending: Digest.Ending)
    requires s.running == Some(a)
    ensures var after := Digest.Step(s, Digest.End(ending));
            && after.running == None && after.clock == s.clock && after.date == s.date
            && (ending != Digest.Transient ==>
                  && after.lastDate == Some(a.today) && after.next == None && after.failures == 0
                  && after.settled == s.settled + [a.today] && after.streak == [])
            && (ending == Digest.Transient ==>
                  && after.lastDate == s.lastDate && after.settled == s.settled && after.failures == s.failures + 1
                  && after.next == Some(a.now + Digest.Backoff(after.failures)) && after.streak == s.streak + [a.now])
  {
  }

  lemma OtherDigestEvents(s: Digest.State, pastHour: bool, ending: Digest.Ending, seconds: nat, date: int)
    ensures s.running.Some? ==> Digest.Step(s, Digest.Begin(pastHour)) == s
    ensures s.running == None ==> Digest.Step(s, Digest.End(ending)) == s
    ensures Digest.Step(s, Digest.Crash) == s.(running := None)
    ensures Digest.Step(s, Digest.Pass(seconds, date)) == s.(clock := s.clock + seconds, date := date)
  {
  }

  // ---------------------------------------------------------------------- costs

  // A tick that parses proposes one decision at least and ten at most.
  lemma ParsedTick(ps: seq<DecisionLedger.Proposal>, cost: real, director: DecisionPolicy.Director)
    ensures TickCosts.SchemaValid(DecisionLedger.RecordTick(ps, cost, director)) <==> 0 < |ps| < 11
  {
  }

  // Each row of a tick gets the even share in whole micro-dollars, and the first the rest.
  lemma CostShares(n: nat, cost: real, i: nat)
    requires i < n
    ensures var each := (cost * 1000000.0 / n as real).Floor as real / 1000000.0;
            DecisionLedger.Slices(n, cost)[i] == if i == 0 then cost - each * (n - 1) as real else each
  {
    assert cost / n as real * 1000000.0 == cost * 1000000.0 / n as real;
    var each := DecisionLedger.Each(n, cost);
    assert each * n as real == each * (n - 1) as real + each;
  }
}
