/**
 Sampling what became of executed proposals (src/director/outcome-followup.ts:25-32, 109-211):
 six hours between observations, two weeks in all, and none after a final one.
 */
module Followups {
  const INTERVAL := 21600
  const WINDOW := 1209600
  const LIMIT := 5

  datatype Kind = IssueOpen | ClosedNoPr | MergedViaPr | PrOpen | FetchError

  predicate Final(k: Kind) {
    k == ClosedNoPr || k == MergedViaPr
  }

  // `picked` is history: when the sweep chose its candidates.
  datatype Obs = Obs(decision: nat, picked: int, at: int, kind: Kind)

  // `born` holds the executed create_issue decisions with their timestamps; `sweep` is what the
  // sweep in progress has not looked at yet, chosen at `since`.
  datatype State = State(born: map<nat, int>, log: seq<Obs>, sweep: seq<nat>, since: int, clock: int)

  const EMPTY := State(map[], [], [], 0, 0)

  predicate Eligible(born: map<nat, int>, log: seq<Obs>, d: nat, now: int) {
    && d in born && born[d] > now - WINDOW
    && forall i :: 0 <= i < |log| && log[i].decision == d ==> !Final(log[i].kind) && log[i].at <= now - INTERVAL
  }

  ghost predicate Distinct(ids: seq<nat>) {
    forall i, j :: 0 <= i < j < |ids| ==> ids[i] != ids[j]
  }

  datatype Event =
    | Executed(id: nat, ts: int)
    | BeginSweep(candidates: seq<nat>)
    | Observe(kind: Kind)
    | NoNumber
    | Crash
    | Pass(seconds: nat)

  // At most five eligible decisions, each once, and only when no sweep is in progress.
  ghost predicate Enabled(s: State, e: Event) {
    match e
    case Executed(id, ts) => id !in s.born && ts <= s.clock
    case BeginSweep(ids) =>
      && s.sweep == [] && |ids| <= LIMIT && Distinct(ids)
      && forall i :: 0 <= i < |ids| ==> Eligible(s.born, s.log, ids[i], s.clock)
    case _ => true
  }

  ghost function Step(s: State, e: Event): State {
    if !Enabled(s, e) then s
    else
      match e
      case Executed(id, ts) => s.(born := s.born[id := ts])
      case BeginSweep(ids) => s.(sweep := ids, since := s.clock)
      case Observe(kind) =>
        if s.sweep == [] then s
        else s.(log := s.log + [Obs(s.sweep[0], s.since, s.clock, kind)], sweep := s.sweep[1..])
      case NoNumber => if s.sweep == [] then s else s.(sweep := s.sweep[1..])
      case Crash => s.(sweep := [])
      case Pass(seconds) => s.(clock := s.clock + seconds)
  }

  ghost function Run(s: State, es: seq<Event>): State
    decreases |es|
  {
    if es == [] then s else Run(Step(s, es[0]), es[1..])
  }

  function Of(log: seq<Obs>, d: nat): seq<Obs> {
    if log == [] then []
    else Of(log[..|log| - 1], d) + if log[|log| - 1].decision == d then [log[|log| - 1]] else []
  }

  lemma OfGrows(log: seq<Obs>, o: Obs, d: nat)
    ensures Of(log + [o], d) == Of(log, d) + if o.decision == d then [o] else []
  {
    assert (log + [o])[..|log|] == log;
  }

  lemma {:induction false} OfIsFromLog(log: seq<Obs>, d: nat)
    ensures forall k :: 0 <= k < |Of(log, d)| ==> Of(log, d)[k] in log && Of(log, d)[k].decision == d
  {
    if log != [] { OfIsFromLog(log[..|log| - 1], d); }
  }

  // ----------------------------------------------------------------- invariant

  // The k-th observation was picked at least k intervals after the decision was taken, inside
  // the window, and only the last can be final.
  ghost predicate PacedAt(s: State, d: nat) {
    var obs := Of(s.log, d);
    && (obs != [] ==> d in s.born)
    && (forall k :: 0 <= k < |obs| ==>
          && s.born[d] + k * INTERVAL <= obs[k].picked <= obs[k].at <= s.clock
          && obs[k].picked < s.born[d] + WINDOW)
    && (forall k :: 0 <= k < |obs| - 1 ==> !Final(obs[k].kind))
    && (d in s.born ==> s.born[d] <= s.clock)
    && (d in s.sweep ==>
          && d in s.born && s.born[d] + |obs| * INTERVAL <= s.since < s.born[d] + WINDOW
          && forall k :: 0 <= k < |obs| ==> !Final(obs[k].kind))
  }

  ghost predicate Paced(s: State) {
    && s.since <= s.clock && Distinct(s.sweep)
    && forall d: nat :: PacedAt(s, d)
  }

  lemma BeginKeepsPaced(s: State, ids: seq<nat>)
    requires Paced(s) && Enabled(s, BeginSweep(ids))
    ensures Paced(Step(s, BeginSweep(ids)))
  {
    forall d: nat
      ensures PacedAt(Step(s, BeginSweep(ids)), d)
    {
      assert PacedAt(s, d);
      if d in ids {
        var obs := Of(s.log, d);
        OfIsFromLog(s.log, d);
        assert Eligible(s.born, s.log, d, s.clock);
        if obs != [] {
          var last := obs[|obs| - 1];
          assert last in s.log && last.decision == d;
          assert last.at <= s.clock - INTERVAL;
        }
      }
    }
  }

  lemma ObserveAt(s: State, kind: Kind, d: nat)
    requires s.sweep != [] && Distinct(s.sweep) && s.since <= s.clock && PacedAt(s, d)
    ensures PacedAt(s.(log := s.log + [Obs(s.sweep[0], s.since, s.clock, kind)], sweep := s.sweep[1..]), d)
  {
    OfGrows(s.log, Obs(s.sweep[0], s.since, s.clock, kind), d);
    assert s.sweep == [s.sweep[0]] + s.sweep[1..];
    assert d in s.sweep <==> d == s.sweep[0] || d in s.sweep[1..];
    assert forall i :: 0 <= i < |s.sweep[1..]| ==> s.sweep[1..][i] == s.sweep[i + 1];
  }

  lemma ObserveKeepsPaced(s: State, kind: Kind)
    requires Paced(s)
    ensures Paced(Step(s, Observe(kind)))
  {
    if s.sweep != [] {
      forall d: nat
        ensures PacedAt(Step(s, Observe(kind)), d)
      {
        ObserveAt(s, kind, d);
      }
    }
  }

  lemma StepKeepsPaced(s: State, e: Event)
    requires Paced(s)
    ensures Paced(Step(s, e))
  {
    match e {
      case BeginSweep(ids) => if Enabled(s, e) { BeginKeepsPaced(s, ids); }
      case Observe(kind) => ObserveKeepsPaced(s, kind);
      case _ =>
        var after := Step(s, e);
        assert forall d :: d in after.sweep ==> d in s.sweep;
        forall d: nat
          ensures PacedAt(after, d)
        {
          assert PacedAt(s, d);
        }
    }
  }

  lemma {:induction false} RunKeepsPaced(s: State, es: seq<Event>)
    requires Paced(s)
    ensures Paced(Run(s, es))
    decreases |es|
  {
    if es != [] {
      StepKeepsPaced(s, es[0]);
      RunKeepsPaced(Step(s, es[0]), es[1..]);
    }
  }

  // In every run and whatever the forge's latency: at most 56 observations of a decision, and
  // none after a closed or merged one.
  lemma FollowupTheorem(es: seq<Event>, d: nat)
    ensures var obs := Of(Run(EMPTY, es).log, d);
            |obs| <= 56 && forall k :: 0 <= k < |obs| - 1 ==> !Final(obs[k].kind)
  {
    RunKeepsPaced(EMPTY, es);
    var s := Run(EMPTY, es);
    assert PacedAt(s, d);
    var obs := Of(s.log, d);
    if obs != [] {
      var last := |obs| - 1;
      assert s.born[d] + last * INTERVAL <= obs[last].picked < s.born[d] + WINDOW;
    }
  }

  // After k observations of an open issue, one every six hours.
  ghost predicate Sampled(s: State, d: nat, k: nat) {
    && s.born == map[d := 0] && s.sweep == [] && s.clock == k * INTERVAL && |Of(s.log, d)| == k
    && forall i :: 0 <= i < |s.log| ==> !Final(s.log[i].kind) && s.log[i].at <= s.clock - INTERVAL
  }

  lemma SampleOnce(s: State, d: nat, k: nat)
    requires Sampled(s, d, k) && k < 56
    ensures Sampled(Step(Step(Step(s, BeginSweep([d])), Observe(IssueOpen)), Pass(INTERVAL)), d, k + 1)
  {
    assert Eligible(s.born, s.log, d, s.clock);
    assert Enabled(s, BeginSweep([d]));
    OfGrows(s.log, Obs(d, s.clock, s.clock, IssueOpen), d);
  }

  lemma {:induction false} SixHourly(d: nat, k: nat) returns (es: seq<Event>)
    requires k <= 56
    ensures Sampled(Run(EMPTY, es), d, k)
  {
    if k == 0 {
      es := [] + [Executed(d, 0)];
      RunOneMore(EMPTY, [], Executed(d, 0));
    } else {
      es := SixHourly(d, k - 1);
      SampleOnce(Run(EMPTY, es), d, k - 1);
      RunOneMore(EMPTY, es, BeginSweep([d]));
      RunOneMore(EMPTY, es + [BeginSweep([d])], Observe(IssueOpen));
      RunOneMore(EMPTY, es + [BeginSweep([d])] + [Observe(IssueOpen)], Pass(INTERVAL));
      es := es + [BeginSweep([d])] + [Observe(IssueOpen)] + [Pass(INTERVAL)];
    }
  }

  ghost predicate AtMost(d: nat, n: nat, es: seq<Event>) {
    |Of(Run(EMPTY, es).log, d)| <= n
  }

  // And 56 is the least such bound.
  lemma FollowupLimitIff(d: nat, n: nat)
    ensures (forall es: seq<Event> :: AtMost(d, n, es)) <==> n >= 56
  {
    if n >= 56 {
      forall es: seq<Event>
        ensures AtMost(d, n, es)
      {
        FollowupTheorem(es, d);
      }
    } else {
      var es := SixHourly(d, 56);
      assert !AtMost(d, n, es);
    }
  }

  // Observed once and finally, a decision is never picked again.
  lemma FinalEndsIt(es: seq<Event>, more: seq<Event>, d: nat)
    requires var obs := Of(Run(EMPTY, es).log, d); obs != [] && Final(obs[|obs| - 1].kind)
    ensures Of(Run(Run(EMPTY, es), more).log, d) == Of(Run(EMPTY, es).log, d)
  {
    RunKeepsPaced(EMPTY, es);
    StaysFinal(Run(EMPTY, es), more, d);
  }

  lemma StepStaysFinal(s: State, e: Event, d: nat)
    requires Paced(s)
    requires var obs := Of(s.log, d); obs != [] && Final(obs[|obs| - 1].kind)
    ensures Of(Step(s, e).log, d) == Of(s.log, d)
  {
    assert PacedAt(s, d);
    if e.Observe? && s.sweep != [] {
      assert s.sweep[0] in s.sweep;
      OfGrows(s.log, Obs(s.sweep[0], s.since, s.clock, e.kind), d);
    }
  }

  lemma {:induction false} StaysFinal(s: State, es: seq<Event>, d: nat)
    requires Paced(s)
    requires var obs := Of(s.log, d); obs != [] && Final(obs[|obs| - 1].kind)
    ensures Of(Run(s, es).log, d) == Of(s.log, d)
    decreases |es|
  {
    if es != [] {
      StepKeepsPaced(s, es[0]);
      StepStaysFinal(s, es[0], d);
      StaysFinal(Step(s, es[0]), es[1..], d);
    }
  }

  // ----------------------------------------------------------------- the sweep

  // What the forge answers about a candidate: its issue is open, closed for a reason, turns out
  // to be a PR, or cannot be read.
  datatype Answer = Open | Closed(completed: bool) | IsPr | Failed

  function KindOf(a: Answer): Kind {
    match a
    case Open => IssueOpen
    case Closed(completed) => if completed then MergedViaPr else ClosedNoPr
    case IsPr => PrOpen
    case Failed => FetchError
  }

  // A candidate of a sweep: whether an issue number was recorded, the answer, and when it came.
  datatype Candidate = Candidate(decision: nat, hasNumber: bool, answer: Answer, at: int)

  function RowOf(c: Candidate, picked: int): Obs {
    Obs(c.decision, picked, c.at, KindOf(c.answer))
  }

  // The rows of a sweep: one for each candidate with an issue number, in order.
  function RowsOf(cs: seq<Candidate>, picked: int): seq<Obs> {
    if cs == [] then []
    else
      var front, last := RowsOf(cs[..|cs| - 1], picked), cs[|cs| - 1];
      if last.hasNumber then front + [RowOf(last, picked)] else front
  }

  lemma {:induction false} NotAmong(cs: seq<Candidate>, picked: int, d: nat)
    requires forall i :: 0 <= i < |cs| ==> cs[i].decision != d
    ensures Of(RowsOf(cs, picked), d) == []
  {
    if cs != [] {
      var last := cs[|cs| - 1];
      NotAmong(cs[..|cs| - 1], picked, d);
      if last.hasNumber { OfGrows(RowsOf(cs[..|cs| - 1], picked), RowOf(last, picked), d); }
    }
  }

  // A sweep observes each of its candidates at most once, with the forge's answer for it.
  lemma {:induction false} OneRowEach(cs: seq<Candidate>, picked: int, c: nat)
    requires c < |cs| && forall i, j :: 0 <= i < j < |cs| ==> cs[i].decision != cs[j].decision
    ensures Of(RowsOf(cs, picked), cs[c].decision) == if cs[c].hasNumber then [RowOf(cs[c], picked)] else []
  {
    var front, last := cs[..|cs| - 1], cs[|cs| - 1];
    if c == |cs| - 1 {
      NotAmong(front, picked, last.decision);
    } else {
      OneRowEach(front, picked, c);
    }
    if last.hasNumber { OfGrows(RowsOf(front, picked), RowOf(last, picked), cs[c].decision); }
  }

  // The events a sweep makes: time passes until each answer, then it is recorded, or the
  // candidate is passed over.
  ghost function EventsOf(cs: seq<Candidate>, clock: int): seq<Event>
    requires Ordered(cs, clock)
  {
    if cs == [] then []
    else
      var front, last := cs[..|cs| - 1], cs[|cs| - 1];
      EventsOf(front, clock)
      + [Pass(last.at - ClockAfter(front, clock)), if last.hasNumber then Observe(KindOf(last.answer)) else NoNumber]
  }

  function ClockAfter(cs: seq<Candidate>, clock: int): int {
    if cs == [] then clock else cs[|cs| - 1].at
  }

  ghost predicate Ordered(cs: seq<Candidate>, clock: int) {
    (forall i :: 0 <= i < |cs| ==> clock <= cs[i].at) && forall i, j :: 0 <= i < j < |cs| ==> cs[i].at <= cs[j].at
  }

  function IdsOf(cs: seq<Candidate>): seq<nat> {
    if cs == [] then [] else IdsOf(cs[..|cs| - 1]) + [cs[|cs| - 1].decision]
  }

  lemma {:induction false} RunSplits(s: State, es: seq<Event>, fs: seq<Event>)
    ensures Run(s, es + fs) == Run(Run(s, es), fs)
    decreases |es|
  {
    if es == [] {
      assert es + fs == fs;
    } else {
      assert (es + fs)[1..] == es[1..] + fs;
      RunSplits(Step(s, es[0]), es[1..], fs);
    }
  }

  lemma RunOneMore(s: State, es: seq<Event>, e: Event)
    ensures Run(s, es + [e]) == Step(Run(s, es), e)
  {
    RunSplits(s, es, [e]);
    assert [e][1..] == [];
    assert Run(Step(Run(s, es), e), []) == Step(Run(s, es), e);
  }

  lemma TwoSteps(s: State, e: Event, f: Event)
    ensures Run(s, [e, f]) == Step(Step(s, e), f)
  {
    assert [e, f][1..] == [f] && [f][1..] == [];
    assert Run(Step(s, e), [f]) == Run(Step(Step(s, e), f), []);
  }

  // So the rows a sweep appends are those of a run of the machine, and the theorems above are
  // about them.
  lemma {:induction false} SweepIsRun(s: State, cs: seq<Candidate>, rest: seq<nat>)
    requires s.sweep == IdsOf(cs) + rest && Ordered(cs, s.clock)
    ensures Run(s, EventsOf(cs, s.clock)) == s.(log := s.log
            + RowsOf(cs, s.since), sweep := rest, clock := ClockAfter(cs, s.clock))
  {
    if cs != [] {
      var front, last := cs[..|cs| - 1], cs[|cs| - 1];
      assert IdsOf(cs) + rest == IdsOf(front) + ([last.decision] + rest);
      SweepIsRun(s, front, [last.decision] + rest);
      var mid := Run(s, EventsOf(front, s.clock));
      var pass := Pass(last.at - ClockAfter(front, s.clock));
      var look := if last.hasNumber then Observe(KindOf(last.answer)) else NoNumber;
      TwoSteps(mid, pass, look);
      RunSplits(s, EventsOf(front, s.clock), [pass, look]);
      assert mid.sweep[1..] == rest;
      var row := RowOf(last, s.since);
      assert last.hasNumber ==> mid.log + [row] == s.log + (RowsOf(front, s.since) + [row]);
    } else {
      assert s.log + [] == s.log && [] + rest == rest;
    }
  }

  // ------------------------------------------------------------- the candidates

  // ORDER BY id DESC LIMIT n over the eligible decisions with an id below `top`.
  function Newest(born: map<nat, int>, log: seq<Obs>, now: int, top: nat, n: nat): seq<nat>
    decreases top
  {
    if top == 0 || n == 0 then []
    else if Eligible(born, log, top - 1, now) then [top - 1] + Newest(born, log, now, top - 1, n - 1)
    else Newest(born, log, now, top - 1, n)
  }

  lemma {:induction false} NewestFit(born: map<nat, int>, log: seq<Obs>, now: int, top: nat, n: nat)
    ensures var ids := Newest(born, log, now, top, n);
            && |ids| <= n
            && (forall d :: d in ids ==> d < top && Eligible(born, log, d, now))
            && (forall i, j :: 0 <= i < j < |ids| ==> ids[i] > ids[j])
    decreases top
  {
    if top > 0 && n > 0 {
      if Eligible(born, log, top - 1, now) {
        NewestFit(born, log, now, top - 1, n - 1);
        var ids, rest := Newest(born, log, now, top, n), Newest(born, log, now, top - 1, n - 1);
        assert forall i :: 1 <= i < |ids| ==> ids[i] == rest[i - 1] && rest[i - 1] in rest;
      } else {
        NewestFit(born, log, now, top - 1, n);
      }
    }
  }

  ghost predicate PassedOver(born: map<nat, int>, log: seq<Obs>, now: int, top: nat, ids: seq<nat>, d: nat) {
    d < top && Eligible(born, log, d, now) && d !in ids
  }

  lemma {:induction false} NonePassedOver(born: map<nat, int>, log: seq<Obs>, now: int, top: nat, n: nat, d: nat)
    requires PassedOver(born, log, now, top, Newest(born, log, now, top, n), d)
    ensures var ids := Newest(born, log, now, top, n); |ids| == n && forall e :: e in ids ==> d < e
    decreases top
  {
    if n > 0 {
      if Eligible(born, log, top - 1, now) {
        NonePassedOver(born, log, now, top - 1, n - 1, d);
      } else {
        NonePassedOver(born, log, now, top - 1, n, d);
      }
    }
  }

  // Eligible ones only, newest first, and none is passed over for an older one or while there
  // is room.
  lemma NewestFirst(born: map<nat, int>, log: seq<Obs>, now: int, top: nat, n: nat)
    ensures var ids := Newest(born, log, now, top, n);
            && |ids| <= n && Distinct(ids)
            && (forall i :: 0 <= i < |ids| ==> Eligible(born, log, ids[i], now))
            && (forall i, j :: 0 <= i < j < |ids| ==> ids[i] > ids[j])
            && (forall d: nat :: PassedOver(born, log, now, top, ids, d) ==> |ids| == n && forall e :: e in ids ==>
                d < e)
  {
    var ids := Newest(born, log, now, top, n);
    NewestFit(born, log, now, top, n);
    assert forall i :: 0 <= i < |ids| ==> ids[i] in ids;
    forall d: nat | PassedOver(born, log, now, top, ids, d)
      ensures |ids| == n && forall e :: e in ids ==> d < e
    {
      NonePassedOver(born, log, now, top, n, d);
    }
  }

  // What the sweep gets to see of each decision it has picked.
  function Asked(ids: seq<nat>, forge: nat -> Candidate): seq<Candidate> {
    if ids == [] then []
    else Asked(ids[..|ids| - 1], forge) + [forge(ids[|ids| - 1]).(decision := ids[|ids| - 1])]
  }

  lemma {:induction false} AskedIds(ids: seq<nat>, forge: nat -> Candidate)
    ensures IdsOf(Asked(ids, forge)) == ids && |Asked(ids, forge)| == |ids|
    ensures forall i :: 0 <= i < |ids| ==> Asked(ids, forge)[i].decision == ids[i]
  {
    if ids != [] { AskedIds(ids[..|ids| - 1], forge); }
  }

  // A whole sweep, selection included, is a run of the machine.
  lemma SweepFromSelection(s: State, top: nat, forge: nat -> Candidate)
    requires s.sweep == [] && (forall d :: d in s.born ==> d < top)
    requires Ordered(Asked(Newest(s.born, s.log, s.clock, top, LIMIT), forge), s.clock)
    ensures var ids := Newest(s.born, s.log, s.clock, top, LIMIT);
            var cs := Asked(ids, forge);
            Run(s, [BeginSweep(ids)] + EventsOf(cs, s.clock))
            == s.(log := s.log + RowsOf(cs, s.clock), since := s.clock, clock := ClockAfter(cs, s.clock))
  {
    var ids := Newest(s.born, s.log, s.clock, top, LIMIT);
    var cs := Asked(ids, forge);
    AskedIds(ids, forge);
    Begins(s, top);
    assert ids + [] == ids;
    SweepIsRun(s.(sweep := ids, since := s.clock), cs, []);
    assert ([BeginSweep(ids)] + EventsOf(cs, s.clock))[1..] == EventsOf(cs, s.clock);
  }

  lemma Begins(s: State, top: nat)
    requires s.sweep == []
    ensures var ids := Newest(s.born, s.log, s.clock, top, LIMIT);
            Step(s, BeginSweep(ids)) == s.(sweep := ids, since := s.clock)
  {
    NewestFirst(s.born, s.log, s.clock, top, LIMIT);
  }

  class FollowupTable {
    var log: seq<Obs>

    constructor ()
      ensures log == []
    {
      log := [];
    }

    // Picks the candidates and walks them, in order.
    method RunSweep(born: map<nat, int>, now: int, top: nat, forge: nat -> Candidate)
      returns (observed: nat, errored: nat)
      requires forall d :: d in born ==> d < top
      modifies this
      ensures log == old(log) + RowsOf(Asked(Newest(born, old(log), now, top, LIMIT), forge), now)
      ensures observed + errored == |log| - |old(log)|
      ensures errored == 0 <==> forall i :: |old(log)| <= i < |log| ==> log[i].kind != FetchError
    {
      var ids := Newest(born, log, now, top, LIMIT);
      observed, errored := 0, 0;
      var i := 0;
      while i < |ids|
        invariant 0 <= i <= |ids|
        invariant log == old(log) + RowsOf(Asked(ids[..i], forge), now)
        invariant observed + errored == |log| - |old(log)|
        invariant errored == 0 <==> forall i :: |old(log)| <= i < |log| ==> log[i].kind != FetchError
      {
        ghost var cs := Asked(ids[..i + 1], forge);
        assert ids[..i + 1][..i] == ids[..i];
        assert cs[..|cs| - 1] == Asked(ids[..i], forge);
        var c := forge(ids[i]).(decision := ids[i]);
        if c.hasNumber {
          ghost var before := log;
          log := log + [RowOf(c, now)];
          assert forall j :: 0 <= j < |before| ==> log[j] == before[j];
          if c.answer.Failed? {
            errored := errored + 1;
            assert log[|before|].kind == FetchError;
          } else {
            observed := observed + 1;
          }
        }
        i := i + 1;
      }
      assert ids[..|ids|] == ids;
    }
  }
}
