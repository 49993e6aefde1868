/**
 What the recalibration of the caps and the budget of ticks promise, in the words of the code
 (src/director/retrospective.ts:88-170, src/director/budget.ts:51-172, src/director/tick.ts:85-317).
 */
module BudgetLaws {
  import opened Wrappers
  import BudgetCaps
  import opened TickBudget

  // Where a cap is to go: ten per cent up or twenty down, within its bounds.
  function Aim(was: real, climbs: bool, lo: real, hi: real): real {
    var aim := if climbs then was * 1.1 else was * 0.8;
    var below := if aim > hi then hi else aim;
    if below < lo then lo else below
  }

  predicate Tiny(was: real, now: real) {
    -0.005 < now - was < 0.005
  }

  // With five decisions or more, four fifths of them executed raise both caps and two fifths or
  // less lower them, once per UTC day, unless neither cap would move by half a cent; what is
  // moved is on record.
  lemma RecalibratedCaps(cfg: BudgetCaps.Config, s: BudgetCaps.State, day: int, sample: BudgetCaps.Sample)
    ensures var after := BudgetCaps.Step(cfg, s, BudgetCaps.Tick(day, sample));
            var size := sample.executed + sample.failed + sample.rejected;
            var climbs, shrinks := 5 * sample.executed >= 4 * size, 5 * sample.executed <= 2 * size;
            var daily := Aim(s.daily, climbs, cfg.initialDaily, cfg.maxDaily);
            var weekly := Aim(s.weekly, climbs, cfg.initialWeekly, cfg.maxWeekly);
            if && (s.history == [] || s.history[|s.history| - 1].day < day)
               && size >= 5 && (climbs || shrinks) && !(Tiny(s.daily, daily) && Tiny(s.weekly, weekly))
            then && after.daily == daily && after.weekly == weekly
                 && after.history == s.history + [BudgetCaps.Entry(day, s.daily, daily, s.weekly, weekly)]
            else after == s
  {
    BudgetCaps.DirectionIff(sample);
  }

  // Two fifths executed at most, of five decisions or more.
  predicate Bad(s: BudgetCaps.Sample) {
    var size := s.executed + s.failed + s.rejected;
    size >= 5 && 5 * s.executed <= 2 * size
  }

  // Where a cap is after n bad days.
  ghost predicate Shrunk(was: real, now: real, lo: real, n: nat) {
    now - lo < 0.005 || now <= was - 0.005 * n as real
  }

  lemma ShrinkDay(cfg: BudgetCaps.Config, s: BudgetCaps.State, t: BudgetCaps.Tick)
    requires cfg.Valid() && BudgetCaps.InRange(cfg, s) && BudgetCaps.ShouldRecalibrate(s, t.day) && Bad(t.sample)
    ensures var after := BudgetCaps.Step(cfg, s, t);
            && BudgetCaps.InRange(cfg, after) && after.daily <= s.daily && after.weekly <= s.weekly
            && (cfg.initialDaily >= 0.025 ==> Shrunk(s.daily, after.daily, cfg.initialDaily, 1))
            && (cfg.initialWeekly >= 0.025 ==> Shrunk(s.weekly, after.weekly, cfg.initialWeekly, 1))
  {
    BudgetCaps.DirectionIff(t.sample);
  }

  // So bad days in a row bring the caps down to within half a cent of where they started.
  lemma {:induction false} ShrinkTheorem(cfg: BudgetCaps.Config, s: BudgetCaps.State, ts: seq<BudgetCaps.Tick>)
    requires cfg.Valid() && BudgetCaps.InRange(cfg, s) && BudgetCaps.DaysAdvance(ts)
    requires s.history == [] || ts == [] || s.history[|s.history| - 1].day < ts[0].day
    requires forall i :: 0 <= i < |ts| ==> Bad(ts[i].sample)
    ensures var after := BudgetCaps.Run(cfg, s, ts);
            && BudgetCaps.InRange(cfg, after)
            && (after.history != [] && ts != [] ==> after.history[|after.history| - 1].day <= ts[|ts| - 1].day)
            && (cfg.initialDaily >= 0.025 ==> Shrunk(s.daily, after.daily, cfg.initialDaily, |ts|))
            && (cfg.initialWeekly >= 0.025 ==> Shrunk(s.weekly, after.weekly, cfg.initialWeekly, |ts|))
  {
    if ts != [] {
      var n := |ts| - 1;
      ShrinkTheorem(cfg, s, ts[..n]);
      var before := BudgetCaps.Run(cfg, s, ts[..n]);
      assert 0.005 * |ts| as real == 0.005 * n as real + 0.005;
      assert n == 0 ==> before == s;
      ShrinkDay(cfg, before, ts[n]);
    }
  }

  // --------------------------------------------------------------------- ticks

  // A tick passes when nobody has paused the director, it has not failed too often in a row,
  // and money is left to think with, today and in the project's caps; a rollover to a new UTC
  // day and the day's recalibration come first.
  lemma BegunTick(cfg: Config, s: State, today: int, sample: BudgetCaps.Sample)
    requires s.phase == Idle
    ensures var after := Step(cfg, s, BeginTick(today, sample));
            var anew := s.created && (s.day.None? || s.day.value < today);
            && after.created && after.streak == s.streak && after.paused == s.paused && after.calls == s.calls
            && after.thought == (if anew then 0.0 else s.thought) && after.day == (if anew then Some(today) else s.day)
            && after.byTicks == (if anew then 0.0 else s.byTicks)
            && after.byDigests == (if anew then 0.0 else s.byDigests)
            && after.caps == BudgetCaps.Step(cfg.caps, s.caps, BudgetCaps.Tick(today, sample))
            && (after.phase == Idle || after.phase == Thinking)
            && (after.phase == Thinking <==>
                  && !s.paused && s.streak < cfg.maxStreak && after.thought < cfg.thinkDaily
                  && after.caps.daily > 0.0 && after.caps.weekly > 0.0)
  {
  }

  lemma NoTickInATick(cfg: Config, s: State, today: int, sample: BudgetCaps.Sample)
    requires s.phase != Idle
    ensures Step(cfg, s, BeginTick(today, sample)) == s
  {
  }

  // No engine, a failed call and an answer that does not parse count as failures in a row; what
  // was answered is paid for, parsed or not; a good answer goes on to be executed.
  lemma AnsweredTick(cfg: Config, s: State, ending: Ending)
    requires s.phase == Thinking
    ensures var after := Step(cfg, s, Answered(ending));
            var cost := if ending.SchemaInvalid? || ending.Good? then ending.cost else 0.0;
            && after == s.(phase := after.phase, streak := after.streak, calls := after.calls,
                           thought := s.thought + cost, byTicks := s.byTicks + cost)
            && (after.phase == if ending.Good? then Executing else Idle)
            && after.streak == (if ending.Good? then s.streak else s.streak + 1)
            && after.calls == if ending == NoEngine then s.calls else s.calls + 1
  {
  }

  // Only a tick that was executed clears the failures; digests are charged and humans pause,
  // once there is a row; a crash ends the tick with nothing else changed.
  lemma OtherEvents(cfg: Config, s: State, cost: real, on: bool, today: int)
    ensures Step(cfg, s, Executed) == if s.phase == Executing then s.(phase := Idle, streak := 0) else s
    ensures Step(cfg, s, Digest(cost))
            == if s.created then s.(thought := s.thought + cost, byDigests := s.byDigests + cost) else s
    ensures Step(cfg, s, SetPaused(on)) == if s.created then s.(paused := on) else s
    ensures Step(cfg, s, Crash) == s.(phase := Idle)
    ensures var after := Step(cfg, s, Rollover(today));
            after == if s.created && (s.day.None? || s.day.value < today)
                     then s.(thought := 0.0, byTicks := 0.0, byDigests := 0.0, day := Some(today))
                     else s.(created := true)
  {
  }
}
