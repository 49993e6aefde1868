/**
 Daily recalibration of the adaptive caps (src/director/retrospective.ts:26-170,
 src/director/budget.ts:49-62), in reals.  Days are UTC day numbers.
 */
module BudgetCaps {
  import opened Wrappers

  const MIN_SAMPLE := 5
  const EPSILON := 0.005

  datatype Config = Config(initialDaily: real, maxDaily: real, initialWeekly: real, maxWeekly: real) {
    // What the schema of the configuration checks; it does not compare initial with max.
    predicate Nonnegative() { 0.0 <= initialDaily && 0.0 <= maxDaily && 0.0 <= initialWeekly && 0.0 <= maxWeekly }

    predicate Valid() { 0.0 <= initialDaily <= maxDaily && 0.0 <= initialWeekly <= maxWeekly }
  }

  datatype Entry = Entry(day: int, oldDaily: real, newDaily: real, oldWeekly: real, newWeekly: real)

  datatype State = State(daily: real, weekly: real, history: seq<Entry>)

  // ensureBudgetState
  function Fresh(cfg: Config): State {
    State(cfg.initialDaily, cfg.initialWeekly, [])
  }

  // Decisions of the last two weeks by outcome; skipped ones do not count.
  datatype Sample = Sample(executed: nat, failed: nat, rejected: nat) {
    function Size(): nat { executed + failed + rejected }
  }

  function Clamp(v: real, lo: real, hi: real): real {
    var low := if v < hi then v else hi;
    if lo > low then lo else low
  }

  // 1.1 at a success rate of 80% and more, 0.8 at 40% and less; None holds steady.
  function Factor(s: Sample): Option<real> {
    if s.Size() < MIN_SAMPLE then None
    else if s.executed as real / s.Size() as real >= 0.8 then Some(1.1)
    else if s.executed as real / s.Size() as real <= 0.4 then Some(0.8)
    else None
  }

  function Gap(a: real, b: real): real {
    if a < b then b - a else a - b
  }

  // The last change was on an earlier UTC day.
  predicate ShouldRecalibrate(s: State, today: int) {
    s.history == [] || s.history[|s.history| - 1].day < today
  }

  function Recalibrated(cfg: Config, s: State, today: int, sample: Sample): State {
    match Factor(sample)
    case None => s
    case Some(f) =>
      var daily := Clamp(s.daily * f, cfg.initialDaily, cfg.maxDaily);
      var weekly := Clamp(s.weekly * f, cfg.initialWeekly, cfg.maxWeekly);
      if Gap(daily, s.daily) < EPSILON && Gap(weekly, s.weekly) < EPSILON then s
      else State(daily, weekly, s.history + [Entry(today, s.daily, daily, s.weekly, weekly)])
  }

  // One tick of the Director on a UTC day.
  datatype Tick = Tick(day: int, sample: Sample)

  function Step(cfg: Config, s: State, t: Tick): State {
    if ShouldRecalibrate(s, t.day) then Recalibrated(cfg, s, t.day, t.sample) else s
  }

  function Run(cfg: Config, s: State, ts: seq<Tick>): State {
    if ts == [] then s else Step(cfg, Run(cfg, s, ts[..|ts| - 1]), ts[|ts| - 1])
  }

  // --------------------------------------------------------------- invariants

  ghost predicate InRange(cfg: Config, s: State) {
    cfg.initialDaily <= s.daily <= cfg.maxDaily && cfg.initialWeekly <= s.weekly <= cfg.maxWeekly
  }

  // Each row starts where the one before it ended, the first at the initial caps, and the last
  // ends at the current ones; no two rows are of one day.
  ghost predicate Chained(cfg: Config, s: State) {
    var h := s.history;
    && (h == [] ==> s.daily == cfg.initialDaily && s.weekly == cfg.initialWeekly)
    && (h != [] ==>
          && h[0].oldDaily == cfg.initialDaily && h[0].oldWeekly == cfg.initialWeekly
          && h[|h| - 1].newDaily == s.daily && h[|h| - 1].newWeekly == s.weekly)
    && (forall i :: 0 <= i < |h| - 1 ==> h[i].newDaily == h[i + 1].oldDaily && h[i].newWeekly == h[i + 1].oldWeekly)
    && (forall i, j :: 0 <= i < j < |h| ==> h[i].day < h[j].day)
  }

  // initial * 1.1^n
  function Grown(initial: real, n: nat): real {
    if n == 0 then initial else Grown(initial, n - 1) * 1.1
  }

  // A change multiplies a cap by 1.1 at most.
  ghost predicate Geometric(cfg: Config, s: State) {
    s.daily <= Grown(cfg.initialDaily, |s.history|) && s.weekly <= Grown(cfg.initialWeekly, |s.history|)
  }

  lemma {:induction false} GrownMore(initial: real, n: nat, m: nat)
    requires 0.0 <= initial && n <= m
    ensures 0.0 <= Grown(initial, n) <= Grown(initial, m)
  {
    if n < m {
      GrownMore(initial, n, m - 1);
    } else if n > 0 {
      GrownMore(initial, n - 1, n - 1);
    }
  }

  lemma FactorBounds(v: real, f: real, lo: real, hi: real)
    requires 0.0 <= lo <= v <= hi && (f == 1.1 || f == 0.8)
    ensures lo <= Clamp(v * f, lo, hi) <= hi
    ensures Clamp(v * f, lo, hi) <= v * 1.1
  {
  }

  // A step either changes nothing or multiplies both caps by one factor and clamps them.
  lemma StepShape(cfg: Config, s: State, t: Tick)
    ensures var after := Step(cfg, s, t);
            || after == s
            || (&& ShouldRecalibrate(s, t.day) && Factor(t.sample).Some?
                && after.daily == Clamp(s.daily * Factor(t.sample).value, cfg.initialDaily, cfg.maxDaily)
                && after.weekly == Clamp(s.weekly * Factor(t.sample).value, cfg.initialWeekly, cfg.maxWeekly)
                && after.history == s.history + [Entry(t.day, s.daily, after.daily, s.weekly, after.weekly)])
  {
  }

  lemma ChainGrows(cfg: Config, s: State, after: State, day: int)
    requires Chained(cfg, s) && ShouldRecalibrate(s, day)
    requires after.history == s.history + [Entry(day, s.daily, after.daily, s.weekly, after.weekly)]
    ensures Chained(cfg, after)
  {
  }

  lemma StepKeepsRange(cfg: Config, s: State, t: Tick)
    requires cfg.Valid() && InRange(cfg, s)
    ensures var after := Step(cfg, s, t);
            && InRange(cfg, after)
            && (after != s ==> after.daily <= s.daily * 1.1 && after.weekly <= s.weekly * 1.1)
  {
    StepShape(cfg, s, t);
    if Factor(t.sample).Some? {
      var f := Factor(t.sample).value;
      FactorBounds(s.daily, f, cfg.initialDaily, cfg.maxDaily);
      FactorBounds(s.weekly, f, cfg.initialWeekly, cfg.maxWeekly);
    }
  }

  lemma StepKeeps(cfg: Config, s: State, t: Tick)
    requires cfg.Valid() && InRange(cfg, s) && Chained(cfg, s) && Geometric(cfg, s)
    ensures var after := Step(cfg, s, t); InRange(cfg, after) && Chained(cfg, after) && Geometric(cfg, after)
  {
    var after := Step(cfg, s, t);
    StepKeepsRange(cfg, s, t);
    StepShape(cfg, s, t);
    if after != s {
      ChainGrows(cfg, s, after, t.day);
    }
  }

  lemma {:induction false} RunKeeps(cfg: Config, ts: seq<Tick>)
    requires cfg.Valid()
    ensures var s := Run(cfg, Fresh(cfg), ts); InRange(cfg, s) && Chained(cfg, s) && Geometric(cfg, s)
  {
    if ts != [] {
      RunKeeps(cfg, ts[..|ts| - 1]);
      StepKeeps(cfg, Run(cfg, Fresh(cfg), ts[..|ts| - 1]), ts[|ts| - 1]);
    }
  }

  lemma {:induction false} HistoryDays(cfg: Config, ts: seq<Tick>, first: int, last: int)
    requires forall i :: 0 <= i < |ts| ==> first <= ts[i].day <= last
    ensures forall i :: 0 <= i < |Run(cfg, Fresh(cfg), ts).history| ==>
            first <= Run(cfg, Fresh(cfg), ts).history[i].day <= last
  {
    if ts != [] { HistoryDays(cfg, ts[..|ts| - 1], first, last); }
  }

  lemma {:induction false} DistinctDays(h: seq<Entry>, n: nat)
    requires n < |h| && forall i, j :: 0 <= i < j < |h| ==> h[i].day < h[j].day
    ensures h[n].day >= h[0].day + n
  {
    if n > 0 { DistinctDays(h, n - 1); }
  }

  lemma ChangesFitDays(cfg: Config, ts: seq<Tick>, first: int, last: int)
    requires cfg.Valid() && first <= last
    requires forall i :: 0 <= i < |ts| ==> first <= ts[i].day <= last
    ensures |Run(cfg, Fresh(cfg), ts).history| <= last - first + 1
  {
    RunKeeps(cfg, ts);
    HistoryDays(cfg, ts, first, last);
    var h := Run(cfg, Fresh(cfg), ts).history;
    if h != [] { DistinctDays(h, |h| - 1); }
  }

  // ------------------------------------------------------------------ theorems

  // In every run whose ticks fall on the days first..last: the caps stay in range, change at
  // most once per day, leave a chain of history rows, and are at most initial * 1.1^d for the
  // d days of the run.
  lemma CapsTheorem(cfg: Config, ts: seq<Tick>, first: int, last: int)
    requires cfg.Valid() && first <= last
    requires forall i :: 0 <= i < |ts| ==> first <= ts[i].day <= last
    ensures var s := Run(cfg, Fresh(cfg), ts);
            && InRange(cfg, s) && Chained(cfg, s)
            && |s.history| <= last - first + 1
            && s.daily <= Grown(cfg.initialDaily, last - first + 1)
            && s.weekly <= Grown(cfg.initialWeekly, last - first + 1)
  {
    RunKeeps(cfg, ts);
    ChangesFitDays(cfg, ts, first, last);
    var s := Run(cfg, Fresh(cfg), ts);
    GrownMore(cfg.initialDaily, |s.history|, last - first + 1);
    GrownMore(cfg.initialWeekly, |s.history|, last - first + 1);
  }

  // The schema does not ask for initial <= max, and the range holds exactly under it.
  lemma RangeIff(cfg: Config)
    requires cfg.Nonnegative()
    ensures (forall ts: seq<Tick> :: InRange(cfg, Run(cfg, Fresh(cfg), ts))) <==> cfg.Valid()
  {
    if cfg.Valid() {
      forall ts: seq<Tick>
        ensures InRange(cfg, Run(cfg, Fresh(cfg), ts))
      {
        RunKeeps(cfg, ts);
      }
    } else {
      assert Run(cfg, Fresh(cfg), []) == Fresh(cfg);
    }
  }

  // Whatever the order, no run brings a cap to zero, or up from it.
  ghost predicate SameSign(cfg: Config, s: State) {
    && cfg.initialDaily <= s.daily && cfg.initialWeekly <= s.weekly
    && (cfg.initialDaily == 0.0 ==> s.daily == 0.0) && (cfg.initialWeekly == 0.0 ==> s.weekly == 0.0)
  }

  lemma StepKeepsSign(cfg: Config, s: State, t: Tick)
    requires cfg.Nonnegative() && SameSign(cfg, s)
    ensures SameSign(cfg, Step(cfg, s, t))
  {
    StepShape(cfg, s, t);
  }

  lemma {:induction false} PositiveIff(cfg: Config, ts: seq<Tick>)
    requires cfg.Nonnegative()
    ensures var s := Run(cfg, Fresh(cfg), ts);
            && (s.daily > 0.0 <==> cfg.initialDaily > 0.0) && (s.weekly > 0.0 <==> cfg.initialWeekly > 0.0)
            && SameSign(cfg, s)
  {
    if ts != [] {
      PositiveIff(cfg, ts[..|ts| - 1]);
      StepKeepsSign(cfg, Run(cfg, Fresh(cfg), ts[..|ts| - 1]), ts[|ts| - 1]);
    }
  }

  // ---------------------------------------------------------------- convergence

  predicate Climbs(s: Sample) {
    Factor(s) == Some(1.1)
  }

  // One climb of one cap: by the epsilon at least, unless it ends within it of the maximum.
  lemma ClimbOne(v: real, lo: real, hi: real)
    requires 0.05 <= lo <= v <= hi
    ensures var after := Clamp(v * 1.1, lo, hi);
            v <= after <= hi && (hi - after < EPSILON || after >= v + EPSILON)
  {
  }

  // Where a cap is after n climb days.
  ghost predicate Climbed(v: real, lo: real, hi: real, n: nat) {
    hi - v < EPSILON || v >= lo + EPSILON * n as real
  }

  // A climb day moves a cap by the epsilon at least, unless it is within it of the maximum: a
  // step that neither cap would move that far is not written.
  lemma ClimbDay(cfg: Config, s: State, t: Tick, n: nat)
    requires cfg.Valid() && InRange(cfg, s) && ShouldRecalibrate(s, t.day) && Climbs(t.sample)
    ensures var after := Step(cfg, s, t);
            && (cfg.initialDaily >= 0.05 && Climbed(s.daily, cfg.initialDaily, cfg.maxDaily, n)
                ==> Climbed(after.daily, cfg.initialDaily, cfg.maxDaily, n + 1))
            && (cfg.initialWeekly >= 0.05 && Climbed(s.weekly, cfg.initialWeekly, cfg.maxWeekly, n)
                ==> Climbed(after.weekly, cfg.initialWeekly, cfg.maxWeekly, n + 1))
  {
    assert EPSILON * (n + 1) as real == EPSILON * n as real + EPSILON;
    if cfg.initialDaily >= 0.05 { ClimbOne(s.daily, cfg.initialDaily, cfg.maxDaily); }
    if cfg.initialWeekly >= 0.05 { ClimbOne(s.weekly, cfg.initialWeekly, cfg.maxWeekly); }
  }

  ghost predicate DaysAdvance(ts: seq<Tick>) {
    forall i, j :: 0 <= i < j < |ts| ==> ts[i].day < ts[j].day
  }

  lemma {:induction false} ClimbDays(cfg: Config, ts: seq<Tick>)
    requires cfg.Valid() && DaysAdvance(ts)
    requires forall i :: 0 <= i < |ts| ==> Climbs(ts[i].sample)
    ensures var s := Run(cfg, Fresh(cfg), ts);
            && (s.history != [] ==> ts != [] && s.history[|s.history| - 1].day <= ts[|ts| - 1].day)
            && (cfg.initialDaily >= 0.05 ==> Climbed(s.daily, cfg.initialDaily, cfg.maxDaily, |ts|))
            && (cfg.initialWeekly >= 0.05 ==> Climbed(s.weekly, cfg.initialWeekly, cfg.maxWeekly, |ts|))
  {
    if ts != [] {
      var n := |ts| - 1;
      ClimbDays(cfg, ts[..n]);
      RunKeeps(cfg, ts[..n]);
      ClimbDay(cfg, Run(cfg, Fresh(cfg), ts[..n]), ts[n], n);
    }
  }

  // Enough successful days in a row end within half a cent of the maximum, each cap on its own.
  lemma {:induction false} ConvergenceTheorem(cfg: Config, ts: seq<Tick>)
    requires cfg.Valid() && DaysAdvance(ts)
    requires forall i :: 0 <= i < |ts| ==> Climbs(ts[i].sample)
    ensures var s := Run(cfg, Fresh(cfg), ts);
            && (cfg.initialDaily >= 0.05 && EPSILON * |ts| as real >= cfg.maxDaily - cfg.initialDaily
                ==> cfg.maxDaily - s.daily < EPSILON)
            && (cfg.initialWeekly >= 0.05 && EPSILON * |ts| as real >= cfg.maxWeekly - cfg.initialWeekly
                ==> cfg.maxWeekly - s.weekly < EPSILON)
  {
    ClimbDays(cfg, ts);
    RunKeeps(cfg, ts);
  }

  // A climb from the initial cap that is too small to be written.
  predicate Still(initial: real, most: real) {
    initial * 0.1 < EPSILON || most - initial < EPSILON
  }

  lemma StillStep(cfg: Config, t: Tick)
    requires cfg.Valid() && Still(cfg.initialDaily, cfg.maxDaily) && Still(cfg.initialWeekly, cfg.maxWeekly)
    ensures Step(cfg, Fresh(cfg), t) == Fresh(cfg)
  {
  }

  lemma {:induction false} StillRun(cfg: Config, ts: seq<Tick>)
    requires cfg.Valid() && Still(cfg.initialDaily, cfg.maxDaily) && Still(cfg.initialWeekly, cfg.maxWeekly)
    ensures Run(cfg, Fresh(cfg), ts) == Fresh(cfg)
  {
    if ts != [] {
      StillRun(cfg, ts[..|ts| - 1]);
      StillStep(cfg, ts[|ts| - 1]);
    }
  }

  // The caps never move, however good the outcomes, exactly when both initial caps are below
  // five cents or within half a cent of their maximum.
  lemma StuckIff(cfg: Config)
    requires cfg.Valid()
    ensures (forall ts: seq<Tick> :: Run(cfg, Fresh(cfg), ts) == Fresh(cfg))
            <==> Still(cfg.initialDaily, cfg.maxDaily) && Still(cfg.initialWeekly, cfg.maxWeekly)
  {
    if Still(cfg.initialDaily, cfg.maxDaily) && Still(cfg.initialWeekly, cfg.maxWeekly) {
      forall ts: seq<Tick>
        ensures Run(cfg, Fresh(cfg), ts) == Fresh(cfg)
      {
        StillRun(cfg, ts);
      }
    } else {
      var best := Tick(0, Sample(5, 0, 0));
      DirectionIff(best.sample);
      assert Step(cfg, Fresh(cfg), best) != Fresh(cfg);
      var ts: seq<Tick> := [best];
      assert ts[..0] == [];
      assert Run(cfg, Fresh(cfg), ts) == Step(cfg, Fresh(cfg), best);
      assert Run(cfg, Fresh(cfg), ts) != Fresh(cfg);
    }
  }

  // The direction in whole numbers: up at four fifths executed, down at two fifths, and never
  // on fewer than five decisions.
  lemma DirectionIff(s: Sample)
    ensures Factor(s) == Some(1.1) <==> s.Size() >= MIN_SAMPLE && 5 * s.executed >= 4 * s.Size()
    ensures Factor(s) == Some(0.8) <==> s.Size() >= MIN_SAMPLE && 5 * s.executed <= 2 * s.Size()
    ensures Factor(s).Some? ==> Factor(s).value == 1.1 || Factor(s).value == 0.8
  {
    if s.Size() >= MIN_SAMPLE {
      RatioOrder(s.executed as real, s.Size() as real, 0.8);
      RatioOrder(s.executed as real, s.Size() as real, 0.4);
    }
  }

  lemma RatioOrder(a: real, b: real, r: real)
    requires b > 0.0
    ensures a / b >= r <==> a >= r * b
    ensures a / b <= r <==> a <= r * b
  {
    var q := a / b;
    assert a == q * b;
    assert q > r ==> (q - r) * b > 0.0;
    assert q < r ==> (r - q) * b > 0.0;
  }

  // One decision more: an executed one never turns a climb into anything else, nor a bad one
  // a shrink.
  lemma DirectionIsMonotone(s: Sample)
    ensures Factor(s) == Some(1.1) ==> Factor(s.(executed := s.executed + 1)) == Some(1.1)
    ensures Factor(s) == Some(0.8) ==> Factor(s.(failed := s.failed + 1)) == Some(0.8)
    ensures Factor(s) == Some(0.8) ==> Factor(s.(rejected := s.rejected + 1)) == Some(0.8)
  {
    DirectionIff(s);
    DirectionIff(s.(executed := s.executed + 1));
    DirectionIff(s.(failed := s.failed + 1));
    DirectionIff(s.(rejected := s.rejected + 1));
  }

  // --------------------------------------------------------------------- the row

  method Direction(sample: Sample) returns (factor: Option<real>)
    ensures factor == Factor(sample)
  {
    factor := None;
    if sample.Size() < MIN_SAMPLE { return; }
    var rate := sample.executed as real / sample.Size() as real;
    if rate >= 0.8 {
      factor := Some(1.1);
    } else if rate <= 0.4 {
      factor := Some(0.8);
    }
  }

  class BudgetRow {
    var daily: real
    var weekly: real
    var history: seq<Entry>

    ghost function View(): State
      reads this
    {
      State(daily, weekly, history)
    }

    constructor (cfg: Config)
      ensures View() == Fresh(cfg)
    {
      daily, weekly, history := cfg.initialDaily, cfg.initialWeekly, [];
    }

    // The start of a tick; `changed` when a history row was written.
    method RecalibrateIfDue(cfg: Config, today: int, sample: Sample) returns (changed: bool)
      modifies this
      ensures View() == Step(cfg, old(View()), Tick(today, sample))
      ensures changed <==> |history| == |old(history)| + 1
      ensures !changed ==> View() == old(View())
    {
      changed := false;
      if history == [] || history[|history| - 1].day < today {
        changed := Recalibrate(cfg, today, sample);
      }
    }

    method Recalibrate(cfg: Config, today: int, sample: Sample) returns (changed: bool)
      modifies this
      ensures View() == Recalibrated(cfg, old(View()), today, sample)
      ensures if changed then |history| == |old(history)| + 1 else View() == old(View())
    {
      changed := false;
      var factor := Direction(sample);
      if factor == None { return; }
      var newDaily := Clamp(daily * factor.value, cfg.initialDaily, cfg.maxDaily);
      var newWeekly := Clamp(weekly * factor.value, cfg.initialWeekly, cfg.maxWeekly);
      if Gap(newDaily, daily) < EPSILON && Gap(newWeekly, weekly) < EPSILON { return; }
      history := history + [Entry(today, daily, newDaily, weekly, newWeekly)];
      daily, weekly := newDaily, newWeekly;
      changed := true;
    }
  }
}
