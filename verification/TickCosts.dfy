/**
 The think cost of a tick is spread over the rows it records, duplicates included, and none
 of it is lost (src/director/tick.ts:432-441); amounts are reals.
 */
module TickCosts {
  import opened DecisionPolicy
  import opened DecisionLedger
  import opened EffectSafety

  function Total(rows: seq<Row>): real {
    if rows == [] then 0.0 else Total(rows[..|rows| - 1]) + rows[|rows| - 1].cost
  }

  lemma TotalAdds(rows: seq<Row>, r: Row)
    ensures Total(rows + [r]) == Total(rows) + r.cost
  {
    assert (rows + [r])[..|rows|] == rows;
  }

  lemma {:induction false} TotalKept(rows: seq<Row>, after: seq<Row>)
    requires |rows| == |after| && KeepsRecords(rows, after)
    ensures Total(rows) == Total(after)
  {
    if rows != [] { TotalKept(rows[..|rows| - 1], after[..|rows| - 1]); }
  }

  function Sum(costs: seq<real>): real {
    if costs == [] then 0.0 else Sum(costs[..|costs| - 1]) + costs[|costs| - 1]
  }

  lemma {:induction false} RecordedCosts(s: State, ps: seq<Proposal>, costs: seq<real>, director: Director, n: nat)
    requires n <= |ps| == |costs|
    ensures Total(RecordAll(s, ps, costs, director, n).rows) == Total(s.rows) + Sum(costs[..n])
  {
    if n > 0 {
      RecordedCosts(s, ps, costs, director, n - 1);
      var before := RecordAll(s, ps, costs, director, n - 1);
      var after := RecordOne(before, ps[n - 1], costs[n - 1], director);
      TotalAdds(before.rows, after.rows[|before.rows|]);
      assert costs[..n][..n - 1] == costs[..n - 1];
    }
  }

  // One share each, and the first takes what is left over.
  lemma {:induction false} SharesAddUp(costs: seq<real>, e: real, rest: real)
    requires costs != [] && costs[0] == rest + e
    requires forall i :: 1 <= i < |costs| ==> costs[i] == e
    ensures Sum(costs) == rest + e * |costs| as real
  {
    var n := |costs| - 1;
    if n == 0 {
      assert costs[..0] == [];
    } else {
      SharesAddUp(costs[..n], e, rest);
      assert (n + 1) as real == n as real + 1.0;
      assert e * (n + 1) as real == e * n as real + e;
    }
  }

  lemma SlicesAddUp(n: nat, cost: real)
    requires n > 0
    ensures Sum(Slices(n, cost)) == cost
  {
    var e := Each(n, cost);
    SharesAddUp(Slices(n, cost), e, cost - e * n as real);
  }

  // The schema demands at least one decision, so every tick's cost lands in the table.
  lemma TickConserves(s: State, ps: seq<Proposal>, cost: real, director: Director)
    requires ps != []
    ensures Total(Step(s, RecordTick(ps, cost, director)).rows) == Total(s.rows) + cost
  {
    var costs := Slices(|ps|, cost);
    RecordedCosts(s, ps, costs, director, |ps|);
    assert costs[..|ps|] == costs;
    SlicesAddUp(|ps|, cost);
  }

  // No slice of a non-negative cost is negative, and the first takes less than one
  // micro-dollar per row more than the others.
  lemma SlicesAreEven(i: nat, n: nat, cost: real)
    requires i < n && cost >= 0.0
    ensures 0.0 <= Each(n, cost) <= Slice(i, n, cost) < Each(n, cost) + n as real / 1000000.0
  {
    var share := Share(cost, n as real);
    RoundedDown(share);
    Scale(Each(n, cost), share, n as real, cost);
  }

  lemma Share(cost: real, n: real) returns (share: real)
    requires n > 0.0 && cost >= 0.0
    ensures share == cost / n && share * n == cost && share >= 0.0
  {
    share := cost / n;
  }

  lemma RoundedDown(share: real)
    requires share >= 0.0
    ensures 0.0 <= (share * 1000000.0).Floor as real / 1000000.0 <= share
    ensures share < (share * 1000000.0).Floor as real / 1000000.0 + 1.0 / 1000000.0
  {
  }

  lemma Scale(e: real, share: real, n: real, cost: real)
    requires n > 0.0 && e <= share < e + 1.0 / 1000000.0 && share * n == cost
    ensures 0.0 <= cost - e * n < n / 1000000.0
  {
    var rest := share - e;
    assert rest * n == cost - e * n;
    assert 0.0 <= rest * n < 1.0 / 1000000.0 * n;
  }

  // What the schema-valid ticks of a run cost in all.
  function Charged(es: seq<Event>): real
    decreases |es|
  {
    if es == [] then 0.0
    else (if es[0].RecordTick? then es[0].cost else 0.0) + Charged(es[1..])
  }

  predicate SchemaValid(e: Event) {
    e.RecordTick? ==> 1 <= |e.proposals| <= 10
  }

  lemma {:induction false} CostsConserved(s: State, es: seq<Event>)
    requires Safe(s)
    requires forall i :: 0 <= i < |es| ==> SchemaValid(es[i])
    ensures Total(Run(s, es).rows) == Total(s.rows) + Charged(es)
    decreases |es|
  {
    if es != [] {
      StepIsSafe(s, es[0]);
      var next := Step(s, es[0]);
      if es[0].RecordTick? {
        TickConserves(s, es[0].proposals, es[0].cost, es[0].director);
      } else {
        TotalKept(s.rows, next.rows);
      }
      CostsConserved(next, es[1..]);
    }
  }

  lemma CostsTheorem(es: seq<Event>)
    requires forall i :: 0 <= i < |es| ==> SchemaValid(es[i])
    ensures Total(Run(EMPTY, es).rows) == Charged(es)
  {
    CostsConserved(EMPTY, es);
  }
}
