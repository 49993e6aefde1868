/**
 The gate in front of a tick's engine call and what ticks may spend
 (src/director/budget.ts:51-172, src/director/tick.ts:85-317), with the daily recalibration of
 the caps between rollover and gate.  Ticks of a repo run one at a time, under its lease.
 */
module TickBudget {
  import opened Wrappers
  import BudgetCaps

  datatype Config = Config(maxStreak: nat, thinkDaily: real, caps: BudgetCaps.Config) {
    // What the schema of the configuration checks.
    predicate Valid() { thinkDaily >= 0.0 && caps.Nonnegative() }
  }

  // A tick waits for its engine, then executes what the answer proposed.
  datatype Phase = Idle | Thinking | Executing

  // The budget row, once `created`: `thought` is spent_today_think_usd and `day` last_reset_day.
  // Of the history fields, `byTicks` and `byDigests` split what was charged since the last
  // rollover, and `calls` counts the engine calls of ticks.
  datatype State = State(
    created: bool,
    thought: real,
    streak: nat,
    paused: bool,
    day: Option<int>,
    caps: BudgetCaps.State,
    phase: Phase,
    byTicks: real,
    byDigests: real,
    calls: nat)

  function Empty(cfg: Config): State {
    State(false, 0.0, 0, false, None, BudgetCaps.Fresh(cfg.caps), Idle, 0.0, 0.0, 0)
  }

  // checkBudgetGate; nothing records project spending, so the caps only matter when zero.
  predicate GateOpen(cfg: Config, s: State) {
    && !s.paused && s.streak < cfg.maxStreak && s.thought < cfg.thinkDaily
    && 0.0 < s.caps.daily && 0.0 < s.caps.weekly
  }

  // How the wait for the engine ends: no engine, a failed call, or an answer that is charged
  // and then parsed.
  datatype Ending = NoEngine | CallFailed | SchemaInvalid(cost: real) | Good(cost: real)

  datatype Event =
    | BeginTick(today: int, sample: BudgetCaps.Sample)
    | Answered(ending: Ending)
    | Executed
    | Digest(cost: real)
    | Rollover(today: int)
    | SetPaused(on: bool)
    | Crash

  // The UPDATE touches nothing as long as the row does not exist.
  function Rolled(s: State, today: int): State {
    if s.created && (s.day == None || s.day.value < today)
    then s.(thought := 0.0, byTicks := 0.0, byDigests := 0.0, day := Some(today))
    else s
  }

  // An answer arrived and is paid for.
  function Charged(s: State, cost: real): State {
    s.(calls := s.calls + 1, thought := s.thought + cost, byTicks := s.byTicks + cost)
  }

  function Recalibrated(cfg: Config, s: State, today: int, sample: BudgetCaps.Sample): State {
    s.(caps := BudgetCaps.Step(cfg.caps, s.caps, BudgetCaps.Tick(today, sample)))
  }

  function Step(cfg: Config, s: State, e: Event): State {
    match e
    case BeginTick(today, sample) =>
      if s.phase != Idle then s
      else
        var t := Recalibrated(cfg, Rolled(s, today).(created := true), today, sample);
        if GateOpen(cfg, t) then t.(phase := Thinking) else t
    case Answered(ending) =>
      if s.phase != Thinking then s
      else (
        match ending
        case NoEngine => s.(phase := Idle, streak := s.streak + 1)
        case CallFailed => s.(phase := Idle, streak := s.streak + 1, calls := s.calls + 1)
        case SchemaInvalid(cost) => Charged(s, cost).(phase := Idle, streak := s.streak + 1)
        case Good(cost) => Charged(s, cost).(phase := Executing)
      )
    case Executed => if s.phase == Executing then s.(phase := Idle, streak := 0) else s
    case Digest(cost) => if s.created then s.(thought := s.thought + cost, byDigests := s.byDigests + cost) else s
    case Rollover(today) => Rolled(s, today).(created := true)
    case SetPaused(on) => if s.created then s.(paused := on) else s
    case Crash => s.(phase := Idle)
  }

  function Run(cfg: Config, s: State, es: seq<Event>): State
    decreases |es|
  {
    if es == [] then s else Run(cfg, Step(cfg, s, es[0]), es[1..])
  }

  // No charge is negative, and a tick costs at most `most`.
  predicate Bounded(e: Event, most: real) {
    && (e.Digest? ==> e.cost >= 0.0)
    && (e.Answered? && (e.ending.SchemaInvalid? || e.ending.Good?) ==> 0.0 <= e.ending.cost <= most)
  }

  ghost predicate AllBounded(es: seq<Event>, most: real) {
    forall i :: 0 <= i < |es| ==> Bounded(es[i], most)
  }

  ghost predicate Within(cfg: Config, s: State, most: real) {
    && s.streak <= cfg.maxStreak && (s.phase != Idle ==> s.streak < cfg.maxStreak)
    && s.thought == s.byTicks + s.byDigests && s.byDigests >= 0.0 && s.byTicks >= 0.0
    && s.byTicks <= cfg.thinkDaily + most
    && (s.phase == Thinking ==> s.byTicks < cfg.thinkDaily)
    && BudgetCaps.SameSign(cfg.caps, s.caps)
  }

  lemma StepKeepsWithin(cfg: Config, s: State, e: Event, most: real)
    requires cfg.Valid() && Within(cfg, s, most) && Bounded(e, most) && most >= 0.0
    ensures Within(cfg, Step(cfg, s, e), most)
  {
    if e.BeginTick? { BudgetCaps.StepKeepsSign(cfg.caps, s.caps, BudgetCaps.Tick(e.today, e.sample)); }
    if e.Rollover? && s.phase == Thinking {
      assert 0.0 <= s.byTicks < cfg.thinkDaily;
    }
  }

  lemma {:induction false} RunKeepsWithin(cfg: Config, s: State, es: seq<Event>, most: real)
    requires cfg.Valid() && Within(cfg, s, most) && AllBounded(es, most) && most >= 0.0
    ensures Within(cfg, Run(cfg, s, es), most)
    decreases |es|
  {
    if es != [] {
      StepKeepsWithin(cfg, s, es[0], most);
      RunKeepsWithin(cfg, Step(cfg, s, es[0]), es[1..], most);
    }
  }

  // The streak never passes its limit, and since the last rollover ticks have spent at most
  // the think budget and one tick more, digests coming on top.
  lemma SpendingTheorem(cfg: Config, es: seq<Event>, most: real)
    requires cfg.Valid() && most >= 0.0 && AllBounded(es, most)
    ensures var s := Run(cfg, Empty(cfg), es);
            && s.streak <= cfg.maxStreak
            && s.thought <= cfg.thinkDaily + most + s.byDigests
  {
    RunKeepsWithin(cfg, Empty(cfg), es, most);
  }

  // ------------------------------------------------------------------- the caps

  // A tick that begins recalibrates, whether or not the gate opens.
  function TickOf(s: State, e: Event): seq<BudgetCaps.Tick> {
    if e.BeginTick? && s.phase == Idle then [BudgetCaps.Tick(e.today, e.sample)] else []
  }

  function Ticks(cfg: Config, s: State, es: seq<Event>): seq<BudgetCaps.Tick>
    decreases |es|
  {
    if es == [] then [] else TickOf(s, es[0]) + Ticks(cfg, Step(cfg, s, es[0]), es[1..])
  }

  function Recalibrations(cfg: Config, ticks: seq<BudgetCaps.Tick>): BudgetCaps.State {
    BudgetCaps.Run(cfg.caps, BudgetCaps.Fresh(cfg.caps), ticks)
  }

  lemma StepFollows(cfg: Config, s: State, e: Event, before: seq<BudgetCaps.Tick>)
    requires s.caps == Recalibrations(cfg, before)
    ensures Step(cfg, s, e).caps == Recalibrations(cfg, before + TickOf(s, e))
  {
    if e.BeginTick? && s.phase == Idle {
      assert (before + TickOf(s, e))[..|before|] == before;
    } else {
      assert before + TickOf(s, e) == before;
    }
  }

  lemma {:induction false} CapsFollow(cfg: Config, s: State, es: seq<Event>, before: seq<BudgetCaps.Tick>)
    requires s.caps == Recalibrations(cfg, before)
    ensures Run(cfg, s, es).caps == Recalibrations(cfg, before + Ticks(cfg, s, es))
    decreases |es|
  {
    if es == [] {
      assert before + Ticks(cfg, s, es) == before;
    } else {
      var next := Step(cfg, s, es[0]);
      StepFollows(cfg, s, es[0], before);
      CapsFollow(cfg, next, es[1..], before + TickOf(s, es[0]));
      assert before + TickOf(s, es[0]) + Ticks(cfg, next, es[1..]) == before + Ticks(cfg, s, es);
    }
  }

  // The caps that the gate reads are those of a run of the recalibration, so they stay in range.
  lemma CapsCarryOver(cfg: Config, es: seq<Event>)
    requires cfg.caps.Valid()
    ensures var s := Run(cfg, Empty(cfg), es);
            && s.caps == Recalibrations(cfg, Ticks(cfg, Empty(cfg), es))
            && BudgetCaps.InRange(cfg.caps, s.caps) && BudgetCaps.Chained(cfg.caps, s.caps)
  {
    CapsFollow(cfg, Empty(cfg), es, []);
    assert [] + Ticks(cfg, Empty(cfg), es) == Ticks(cfg, Empty(cfg), es);
    BudgetCaps.RunKeeps(cfg.caps, Ticks(cfg, Empty(cfg), es));
  }

  // ------------------------------------------------------------- reaching the engine

  // At its limit the streak stays there: no later tick calls the engine, whatever happens.
  lemma {:induction false} FullStreakIsFinal(cfg: Config, s: State, es: seq<Event>)
    requires s.streak == cfg.maxStreak && s.phase == Idle
    ensures var after := Run(cfg, s, es);
            after.streak == cfg.maxStreak && after.phase == Idle && after.calls == s.calls
    decreases |es|
  {
    if es != [] { FullStreakIsFinal(cfg, Step(cfg, s, es[0]), es[1..]); }
  }

  // Some budget is zero by configuration.
  predicate Unfunded(cfg: Config) {
    cfg.thinkDaily == 0.0 || cfg.caps.initialDaily == 0.0 || cfg.caps.initialWeekly == 0.0
  }

  lemma {:induction false} UnfundedIsFinal(cfg: Config, s: State, es: seq<Event>, most: real)
    requires cfg.Valid() && Unfunded(cfg) && s.phase == Idle && Within(cfg, s, most)
    requires AllBounded(es, most) && most >= 0.0
    ensures Run(cfg, s, es).calls == s.calls
    decreases |es|
  {
    if es != [] {
      var next := Step(cfg, s, es[0]);
      StepKeepsWithin(cfg, s, es[0], most);
      if es[0].BeginTick? {
        BudgetCaps.StepKeepsSign(cfg.caps, s.caps, BudgetCaps.Tick(es[0].today, es[0].sample));
        assert next.phase == Idle;
      }
      UnfundedIsFinal(cfg, next, es[1..], most);
    }
  }

  ghost predicate EngineReachable(cfg: Config, s: State, most: real) {
    exists es: seq<Event> :: AllBounded(es, most) && Run(cfg, s, es).calls > s.calls
  }

  // Between two ticks of any run: some continuation calls the engine exactly when the streak is
  // below its limit and no budget is zero by configuration.
  lemma EngineReachableIff(cfg: Config, es: seq<Event>, most: real)
    requires cfg.Valid() && most >= 0.0 && AllBounded(es, most)
    requires Run(cfg, Empty(cfg), es).phase == Idle
    ensures var s := Run(cfg, Empty(cfg), es);
            EngineReachable(cfg, s, most) <==> s.streak < cfg.maxStreak && !Unfunded(cfg)
  {
    var s := Run(cfg, Empty(cfg), es);
    RunKeepsWithin(cfg, Empty(cfg), es, most);
    if s.streak == cfg.maxStreak {
      forall more: seq<Event>
        ensures Run(cfg, s, more).calls == s.calls
      {
        FullStreakIsFinal(cfg, s, more);
      }
    } else if Unfunded(cfg) {
      forall more: seq<Event> | AllBounded(more, most)
        ensures Run(cfg, s, more).calls == s.calls
      {
        UnfundedIsFinal(cfg, s, more, most);
      }
    } else {
      OneMoreCall(cfg, s, most);
    }
  }

  // A new day, no pause, and a tick without enough decisions to move the caps.
  lemma OneMoreCall(cfg: Config, s: State, most: real)
    requires cfg.Valid() && Within(cfg, s, most) && s.phase == Idle && s.streak < cfg.maxStreak && !Unfunded(cfg)
    ensures EngineReachable(cfg, s, most)
  {
    var today := if s.day == None then 0 else s.day.value + 1;
    var begin := BeginTick(today, BudgetCaps.Sample(0, 0, 0));
    var s1 := Step(cfg, s, Rollover(today - 1));
    var s2 := Step(cfg, s1, SetPaused(false));
    TickIsAdmitted(cfg, s2, today);
    RunStep(cfg, Step(cfg, s2, begin), Answered(CallFailed), []);
    RunStep(cfg, s2, begin, [Answered(CallFailed)] + []);
    RunStep(cfg, s1, SetPaused(false), [begin] + ([Answered(CallFailed)] + []));
    var es := [SetPaused(false)] + ([begin] + ([Answered(CallFailed)] + []));
    RunStep(cfg, s, Rollover(today - 1), es);
    assert AllBounded([Rollover(today - 1)] + es, most);
  }

  lemma TickIsAdmitted(cfg: Config, s: State, today: int)
    requires BudgetCaps.SameSign(cfg.caps, s.caps) && cfg.Valid() && !Unfunded(cfg)
    requires s.created && !s.paused && s.phase == Idle && s.streak < cfg.maxStreak
    requires s.day == None || s.day.value < today
    ensures var after := Step(cfg, s, BeginTick(today, BudgetCaps.Sample(0, 0, 0)));
            after.phase == Thinking && after.calls == s.calls
  {
    var after := Recalibrated(cfg, Rolled(s, today).(created := true), today, BudgetCaps.Sample(0, 0, 0));
    assert after.caps == s.caps;
    assert GateOpen(cfg, after);
  }

  // ------------------------------------------------------------------ the pause

  predicate Unpauses(e: Event) {
    e.SetPaused? && !e.on
  }

  ghost predicate KeepsPause(es: seq<Event>) {
    forall i :: 0 <= i < |es| ==> !Unpauses(es[i])
  }

  // A paused director calls no engine until it is unpaused.
  lemma {:induction false} PausedIsSilent(cfg: Config, s: State, es: seq<Event>)
    requires s.paused && s.phase == Idle && KeepsPause(es)
    ensures var after := Run(cfg, s, es); after.paused && after.phase == Idle && after.calls == s.calls
    decreases |es|
  {
    if es != [] { PausedIsSilent(cfg, Step(cfg, s, es[0]), es[1..]); }
  }

  ghost predicate ReachableAsIs(cfg: Config, s: State, most: real) {
    exists es: seq<Event> :: AllBounded(es, most) && KeepsPause(es) && Run(cfg, s, es).calls > s.calls
  }

  // Between two ticks of any run: an engine call is reachable with no unpause on the way exactly
  // when there is no pause, the streak is below its limit and no budget is zero.
  lemma ReachableAsIsIff(cfg: Config, es: seq<Event>, most: real)
    requires cfg.Valid() && most >= 0.0 && AllBounded(es, most)
    requires Run(cfg, Empty(cfg), es).phase == Idle
    ensures var s := Run(cfg, Empty(cfg), es);
            ReachableAsIs(cfg, s, most) <==> !s.paused && s.streak < cfg.maxStreak && !Unfunded(cfg)
  {
    var s := Run(cfg, Empty(cfg), es);
    EngineReachableIff(cfg, es, most);
    if s.paused {
      forall more: seq<Event> | KeepsPause(more)
        ensures Run(cfg, s, more).calls == s.calls
      {
        PausedIsSilent(cfg, s, more);
      }
    } else if s.streak < cfg.maxStreak && !Unfunded(cfg) {
      RunKeepsWithin(cfg, Empty(cfg), es, most);
      CallAsIs(cfg, s, most);
    }
  }

  lemma CallAsIs(cfg: Config, s: State, most: real)
    requires cfg.Valid() && Within(cfg, s, most) && s.phase == Idle && s.streak < cfg.maxStreak && !Unfunded(cfg)
    requires !s.paused
    ensures ReachableAsIs(cfg, s, most)
  {
    var today := if s.day == None then 0 else s.day.value + 1;
    var begin := BeginTick(today, BudgetCaps.Sample(0, 0, 0));
    var rolled := Step(cfg, s, Rollover(today - 1));
    TickIsAdmitted(cfg, rolled, today);
    RunStep(cfg, Step(cfg, rolled, begin), Answered(CallFailed), []);
    RunStep(cfg, rolled, begin, [Answered(CallFailed)] + []);
    var es := [begin] + ([Answered(CallFailed)] + []);
    RunStep(cfg, s, Rollover(today - 1), es);
    assert AllBounded([Rollover(today - 1)] + es, most) && KeepsPause([Rollover(today - 1)] + es);
  }

  lemma RunStep(cfg: Config, s: State, e: Event, es: seq<Event>)
    ensures Run(cfg, s, [e] + es) == Run(cfg, Step(cfg, s, e), es)
  {
    assert ([e] + es)[1..] == es;
  }

  // ------------------------------------------------------------------ in place

  class BudgetState {
    const cfg: Config
    const row: BudgetCaps.BudgetRow
    var created: bool
    var thought: real
    var streak: nat
    var paused: bool
    var day: Option<int>
    var phase: Phase
    ghost var byTicks: real
    ghost var byDigests: real
    ghost var calls: nat

    ghost function View(): State
      reads this, row
    {
      State(created, thought, streak, paused, day, row.View(), phase, byTicks, byDigests, calls)
    }

    constructor (cfg: Config)
      ensures this.cfg == cfg && View() == Empty(cfg) && fresh(row)
    {
      this.cfg := cfg;
      row := new BudgetCaps.BudgetRow(cfg.caps);
      created, thought, streak, paused, day, phase := false, 0.0, 0, false, None, Idle;
      byTicks, byDigests, calls := 0.0, 0.0, 0;
    }

    method RolloverDayIfNeeded(today: int)
      modifies this`thought, this`day, this`byTicks, this`byDigests
      ensures View() == Rolled(old(View()), today)
    {
      if created && (day == None || day.value < today) {
        thought, day := 0.0, Some(today);
        byTicks, byDigests := 0.0, 0.0;
      }
    }

    method CheckBudgetGate() returns (ok: bool)
      ensures ok <==> GateOpen(cfg, View())
      ensures paused || streak >= cfg.maxStreak ==> !ok
      ensures thought >= cfg.thinkDaily || row.daily == 0.0 || row.weekly == 0.0 ==> !ok
    {
      ok := false;
      if paused { return; }
      if streak >= cfg.maxStreak { return; }
      if thought >= cfg.thinkDaily { return; }
      if 0.0 >= row.daily { return; }
      if 0.0 >= row.weekly { return; }
      ok := true;
    }

    // runTick up to the engine call.
    method Begin(today: int, sample: BudgetCaps.Sample) returns (admitted: bool)
      requires phase == Idle
      modifies this, row
      ensures View() == Step(cfg, old(View()), BeginTick(today, sample)) && (admitted <==> phase == Thinking)
    {
      RolloverDayIfNeeded(today);
      created := true;
      var _ := row.RecalibrateIfDue(cfg.caps, today, sample);
      admitted := CheckBudgetGate();
      if admitted { phase := Thinking; }
    }

    // runTick after the engine call: charging comes before parsing.
    method Conclude(ending: Ending) returns (spent: real)
      requires phase == Thinking
      modifies this
      ensures View() == Step(cfg, old(View()), Answered(ending))
      ensures spent == thought - old(thought)
    {
      spent := 0.0;
      phase := Idle;
      if ending.NoEngine? {
        streak := streak + 1;
        return;
      }
      calls := calls + 1;
      if ending.CallFailed? {
        streak := streak + 1;
        return;
      }
      spent := ending.cost;
      thought, byTicks := thought + spent, byTicks + spent;
      if ending.Good? {
        phase := Executing;
      } else {
        streak := streak + 1;
      }
    }

    // The end of a tick whose decisions have been executed.
    method Succeed()
      requires phase == Executing
      modifies this`phase, this`streak
      ensures View() == Step(cfg, old(View()), Executed)
    {
      phase, streak := Idle, 0;
    }

    method RecordThinkSpend(cost: real)
      modifies this`thought, this`byDigests
      ensures View() == Step(cfg, old(View()), Digest(cost))
    {
      if created { thought, byDigests := thought + cost, byDigests + cost; }
    }
  }
}
