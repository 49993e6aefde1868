/**
 The Director's decisions of one repository as a state machine (src/director/tick.ts:235-310,
 438-486, src/director/executor.ts, src/director/decisions.ts).

 A stretch of code without an await is one event.  A tick records all its decisions at once
 and then executes them one by one; an execution or an approval is in flight between its
 start and its end, and anything may happen meanwhile: approvals, rejections, the expiry
 sweep, further ticks, configuration changes, and a crash that loses what a process had in
 hand.  An event that is not enabled leaves the state alone.
 */
module DecisionLedger {
  import opened Wrappers
  import opened DecisionPolicy
  import opened DecisionKeys

  const WEEK := 604800
  const RETRIES := 3

  datatype Outcome = Pending | Executed | Rejected | Expired | Failed | Skipped | DryRun

  // `key` is the stored payload hash (None for the kinds that are never deduplicated);
  // `proposed` is history: the payload as it was recorded.
  datatype Row = Row(
    ts: int,
    kind: Kind,
    payload: Payload,
    key: Option<string>,
    outcome: Outcome,
    cost: real,
    proposed: Payload)

  datatype Proposal = Proposal(kind: Kind, payload: Payload)

  // A run of a decision's side effect, with the configuration its authority was read from.
  datatype Flight = Flight(id: nat, director: Director, approved: bool, payload: Payload, tries: nat)

  datatype Effect = Effect(id: nat, call: Call, director: Director, approved: bool, payload: Payload)

  datatype Try = Try(start: nat, id: nat, ok: bool)

  // `held`: recorded by a tick and not executed yet, with the configuration of that tick.
  // `flights` is keyed by position in `starts`, the decisions whose run was started; `losses`
  // lists those whose run a crash cut off, `tries` the attempts, `effects` the calls made.
  datatype State = State(
    rows: seq<Row>,
    held: map<nat, Director>,
    flights: map<nat, Flight>,
    starts: seq<nat>,
    losses: seq<nat>,
    tries: seq<Try>,
    effects: seq<Effect>,
    clock: int)

  const EMPTY := State([], map[], map[], [], [], [], [], 0)

  datatype TryResult = Succeeds | Throws(issued: nat, transient: bool)

  datatype Event =
    | RecordTick(proposals: seq<Proposal>, cost: real, director: Director)
    | ExecuteHeld(held: nat)
    | Approve(approved: nat, mine: bool, overrides: Payload, director: Director)
    | Attempt(start: nat, result: TryResult)
    | Reject(rejected: nat, mine: bool)
    | Expire
    | Pass(seconds: nat)
    | LoseFlight(lost: nat)
    | LoseHeld(forgotten: nat)

  // ---------------------------------------------------------------- recording

  // findRecentDuplicate
  predicate Living(r: Row) {
    r.outcome == Pending || r.outcome == Executed
  }

  predicate IsDuplicate(rows: seq<Row>, key: Option<string>, clock: int) {
    key.Some? && exists i :: 0 <= i < |rows| && rows[i].key == key && Living(rows[i]) && rows[i].ts > clock - WEEK
  }

  // The think cost is spread in whole micro-dollars; the first row takes the rest.
  function Each(n: nat, cost: real): real
    requires n > 0
  {
    (cost / n as real * 1000000.0).Floor as real / 1000000.0
  }

  function Slice(i: nat, n: nat, cost: real): real
    requires i < n
  {
    if i == 0 then cost - Each(n, cost) * n as real + Each(n, cost) else Each(n, cost)
  }

  function Slices(n: nat, cost: real): seq<real> {
    seq(n, i requires 0 <= i < n => Slice(i, n, cost))
  }

  function RecordOne(s: State, p: Proposal, cost: real, director: Director): State {
    var key := Key(p.kind, p.payload);
    if IsDuplicate(s.rows, key, s.clock)
    then s.(rows := s.rows + [Row(s.clock, p.kind, p.payload, key, Skipped, cost, p.payload)])
    else s.(rows := s.rows + [Row(s.clock, p.kind, p.payload, key, Pending, cost, p.payload)],
            held := s.held[|s.rows| := director])
  }

  // The first `n` proposals of a tick, in order: each sees the ones before it.
  function RecordAll(s: State, ps: seq<Proposal>, costs: seq<real>, director: Director, n: nat): State
    requires n <= |ps| == |costs|
  {
    if n == 0 then s
    else RecordOne(RecordAll(s, ps, costs, director, n - 1), ps[n - 1], costs[n - 1], director)
  }

  // ---------------------------------------------------------------- executing

  function SetOutcome(s: State, id: nat, outcome: Outcome): State {
    if id < |s.rows| then s.(rows := s.rows[id := s.rows[id].(outcome := outcome)]) else s
  }

  function StartRun(s: State, id: nat, director: Director, approved: bool, payload: Payload): State {
    s.(flights := s.flights[|s.starts| := Flight(id, director, approved, payload, 0)], starts := s.starts + [id])
  }

  // What executing a decision settles at once: nothing is done in dry_run, authority skips,
  // and an approval may be needed.  None starts the side effect.
  function SettledTo(kind: Kind, director: Director): Option<Outcome> {
    if director.mode == DryRunMode then Some(DryRun)
    else if !Allowed(kind, director.authority) then Some(Skipped)
    else if NeedsApproval(kind, director.mode) then Some(Pending)
    else None
  }

  // Executes with the configuration the tick started with, and without reading the outcome again.
  function ExecuteStep(s: State, id: nat): State {
    if id !in s.held || id >= |s.rows| then s
    else
      var t := s.(held := s.held - {id});
      match SettledTo(s.rows[id].kind, s.held[id])
      case Some(outcome) => SetOutcome(t, id, outcome)
      case None => StartRun(t, id, s.held[id], false, s.rows[id].proposed)
  }

  // Authority is read again, the mode is not; edits are stored, the key is not recomputed.
  function ApproveStep(s: State, id: nat, mine: bool, overrides: Payload, director: Director): State {
    if id >= |s.rows| || s.rows[id].outcome != Pending || !mine then s
    else
      var row := s.rows[id];
      var payload := Merged(row.kind, row.payload, overrides);
      var t := s.(rows := s.rows[id := row.(payload := payload)]);
      if !Allowed(row.kind, director.authority) then SetOutcome(t, id, Skipped)
      else StartRun(t, id, director, true, payload)
  }

  function Effects(f: Flight, calls: seq<Call>): seq<Effect> {
    seq(|calls|, i requires 0 <= i < |calls| => Effect(f.id, calls[i], f.director, f.approved, f.payload))
  }

  // One call of runDecision under the retry loop; for an amend_charter it always throws.
  function AttemptStep(s: State, k: nat, result: TryResult): State {
    if k !in s.flights || s.flights[k].id >= |s.rows| then s
    else
      var f := s.flights[k];
      var kind := s.rows[f.id].kind;
      var calls := CallsOf(kind);
      match if kind == AmendCharter then Throws(0, false) else result
      case Succeeds =>
        SetOutcome(s.(flights := s.flights - {k},
                      tries := s.tries + [Try(k, f.id, true)],
                      effects := s.effects + Effects(f, calls)), f.id, Executed)
      case Throws(issued, transient) =>
        var t := s.(tries := s.tries + [Try(k, f.id, false)],
                    effects := s.effects + Effects(f, calls[..Min(issued, |calls|)]));
        if transient && f.tries < RETRIES then t.(flights := s.flights[k := f.(tries := f.tries + 1)])
        else SetOutcome(t.(flights := s.flights - {k}), f.id, Failed)
  }

  function RejectStep(s: State, id: nat, mine: bool): State {
    if id >= |s.rows| || s.rows[id].outcome != Pending || !mine then s else SetOutcome(s, id, Rejected)
  }

  predicate Stale(r: Row, clock: int) {
    r.outcome == Pending && r.ts < clock - WEEK
  }

  function ExpiredRows(rows: seq<Row>, clock: int): (r: seq<Row>)
    ensures |r| == |rows|
    ensures forall i :: 0 <= i < |rows| ==>
                          r[i] == if Stale(rows[i], clock) then rows[i].(outcome := Expired) else rows[i]
  {
    seq(|rows|, i requires 0 <= i < |rows| =>
      if Stale(rows[i], clock) then rows[i].(outcome := Expired) else rows[i])
  }

  function Step(s: State, e: Event): State {
    match e
    case RecordTick(proposals, cost, director) =>
      RecordAll(s, proposals, Slices(|proposals|, cost), director, |proposals|)
    case ExecuteHeld(id) => ExecuteStep(s, id)
    case Approve(id, mine, overrides, director) => ApproveStep(s, id, mine, overrides, director)
    case Attempt(k, result) => AttemptStep(s, k, result)
    case Reject(id, mine) => RejectStep(s, id, mine)
    case Expire => s.(rows := ExpiredRows(s.rows, s.clock))
    case Pass(seconds) => s.(clock := s.clock + seconds)
    case LoseFlight(k) =>
      if k in s.flights then s.(flights := s.flights - {k}, losses := s.losses + [s.flights[k].id]) else s
    case LoseHeld(id) => s.(held := s.held - {id})
  }

  function Run(s: State, es: seq<Event>): State
    decreases |es|
  {
    if es == [] then s else Run(Step(s, es[0]), es[1..])
  }

  // A run of the decision's side effect is in progress.
  ghost predicate Flying(s: State, id: nat) {
    exists k :: k in s.flights && s.flights[k].id == id
  }

  // Some process is about to set the decision's outcome.
  ghost predicate InHand(s: State, id: nat) {
    id in s.held || Flying(s, id)
  }

  // Humans leave alone what a tick or another approval has in hand.
  ghost predicate Considerate(s: State, e: Event) {
    && (e.Approve? && e.mine ==> !InHand(s, e.approved))
    && (e.Reject? && e.mine ==> !InHand(s, e.rejected))
  }

  ghost predicate Orderly(s: State, es: seq<Event>)
    decreases |es|
  {
    es == [] || (Considerate(s, es[0]) && Orderly(Step(s, es[0]), es[1..]))
  }

  // ------------------------------------------------------------ runs in pieces

  lemma {:induction false} RunSplits(s: State, es: seq<Event>, fs: seq<Event>)
    ensures Run(s, es + fs) == Run(Run(s, es), fs)
    ensures Orderly(s, es + fs) <==> Orderly(s, es) && Orderly(Run(s, es), fs)
    decreases |es|
  {
    if es == [] {
      assert es + fs == fs;
    } else {
      assert (es + fs)[1..] == es[1..] + fs;
      RunSplits(Step(s, es[0]), es[1..], fs);
    }
  }

  lemma OneStep(s: State, e: Event)
    ensures Run(s, [e]) == Step(s, e)
    ensures Orderly(s, [e]) <==> Considerate(s, e)
  {
    assert [e][1..] == [];
    assert Orderly(Step(s, e), []) && Run(Step(s, e), []) == Step(s, e);
  }

  lemma RunOneMore(s: State, es: seq<Event>, e: Event)
    ensures Run(s, es + [e]) == Step(Run(s, es), e)
    ensures Orderly(s, es + [e]) <==> Orderly(s, es) && Considerate(Run(s, es), e)
  {
    RunSplits(s, es, [e]);
    OneStep(Run(s, es), e);
  }
}
