// How many layers each pipeline stage gets: get_dynamic_pipeline_shards.
module PipelinePlan {
  import opened Common

  datatype PlanError = MoreStagesThanLayers | NoStage | NoStrategy

  // The stage sizes for a middle size m: first and last share what the middle stages leave.
  function Rest(layers: nat, pp: nat, m: nat): int { layers - m * (pp - 2) }

  predicate Acceptable(layers: nat, pp: nat, m: nat) {
    var first := Rest(layers, pp, m) / 2;
    var last := Rest(layers, pp, m) - first;
    0 < first <= m && 0 < last <= m
  }

  function Shards(layers: nat, pp: nat, m: nat): (r: seq<int>)
    requires pp >= 3
    ensures |r| == pp
  {
    var first := Rest(layers, pp, m) / 2;
    [first] + seq(pp - 2, _ => m) + [Rest(layers, pp, m) - first]
  }

  function Spread(layers: nat, pp: nat, m: nat): nat {
    var d := Rest(layers, pp, m) / 2 - m;
    if d < 0 then -d else d
  }

  // What a caller can check before asking for three or more stages.
  predicate Plannable(layers: nat, pp: nat)
    requires pp > 0
  {
    (layers + pp - 1) / pp * (pp - 2) + 2 <= layers
  }

  ghost predicate GoodPlan(layers: nat, plan: seq<int>, pp: nat) {
    |plan| == pp && Sum(plan) == layers && forall i | 0 <= i < pp :: plan[i] > 0
  }

  ghost predicate LeastSpread(layers: nat, pp: nat, plan: seq<int>)
    requires pp >= 3
  {
    exists m: nat :: m < layers && Acceptable(layers, pp, m) && plan == Shards(layers, pp, m)
      && forall x: nat | x < layers && Acceptable(layers, pp, x) :: Spread(layers, pp, m) <= Spread(layers, pp, x)
  }

  lemma SumOfCopies(n: nat, m: int)
    ensures Sum(seq(n, _ => m)) == n * m
  {
    if n > 0 {
      assert seq(n, _ => m)[1..] == seq(n - 1, _ => m);
      SumOfCopies(n - 1, m);
      assert n * m == m + (n - 1) * m;
    }
  }

  lemma ShardsArePlan(layers: nat, pp: nat, m: nat)
    requires pp >= 3 && Acceptable(layers, pp, m)
    ensures GoodPlan(layers, Shards(layers, pp, m), pp)
  {
    var first := Rest(layers, pp, m) / 2;
    SumOfCopies(pp - 2, m);
    SumAppend([first], seq(pp - 2, _ => m));
    SumSnoc([first] + seq(pp - 2, _ => m), Rest(layers, pp, m) - first);
    assert Sum([first]) == first + Sum([]);
  }

  // Acceptable middle sizes are those between two linear bounds.
  lemma AcceptableBounds(layers: nat, pp: nat, m: nat)
    requires pp >= 3
    ensures Acceptable(layers, pp, m) <==> layers <= m * pp && m * (pp - 2) + 2 <= layers
  {
    assert m * pp == m * (pp - 2) + m + m;
  }

  // Some middle size below the layer count is acceptable exactly when the plan is feasible.
  lemma PlannableIff(layers: nat, pp: nat)
    requires pp >= 3
    ensures Plannable(layers, pp) <==> exists m: nat :: m < layers && Acceptable(layers, pp, m)
  {
    var c := (layers + pp - 1) / pp;
    CeilBounds(layers, pp);
    if Plannable(layers, pp) {
      AcceptableBounds(layers, pp, c);
      MulMono(1, pp - 2, c);
      assert Acceptable(layers, pp, c);
    }
    if m: nat :| m < layers && Acceptable(layers, pp, m) {
      AcceptableBounds(layers, pp, m);
      CeilLeast(layers, pp, m);
      MulMono(c, m, pp - 2);
    }
  }

  lemma CeilBounds(x: nat, n: nat)
    requires n > 0
    ensures x <= (x + n - 1) / n * n < x + n
  {
    assert x + n - 1 == (x + n - 1) / n * n + (x + n - 1) % n;
  }

  lemma CeilLeast(x: nat, n: nat, m: nat)
    requires n > 0 && x <= m * n
    ensures (x + n - 1) / n <= m
  {
    CeilBounds(x, n);
    if m + 1 <= (x + n - 1) / n {
      MulMono(m + 1, (x + n - 1) / n, n);
    }
  }

  // Every middle stage gets the layers per stage, rounded up; first and last share the rest, the last
  // getting the odd one.
  predicate Balanced(layers: nat, pp: nat, plan: seq<int>)
    requires pp >= 3
  {
    var middle := (layers + pp - 1) / pp;
    var ends := layers - middle * (pp - 2);
    |plan| == pp && plan[0] == ends / 2 && plan[pp - 1] == ends - ends / 2 && forall i :: 0 < i < pp - 1 ==> plan[i] == middle
  }

  // A larger middle size is further from what it leaves to the first stage.
  lemma SpreadGrows(layers: nat, pp: nat, m: nat, x: nat)
    requires pp >= 3 && m < x && Acceptable(layers, pp, m) && Acceptable(layers, pp, x)
    ensures Spread(layers, pp, m) < Spread(layers, pp, x)
  {
    MulMono(m, x, pp - 2);
  }

  // The plan with the least spread is the balanced one.
  lemma LeastIsBalanced(layers: nat, pp: nat, plan: seq<int>)
    requires pp >= 3 && LeastSpread(layers, pp, plan)
    ensures Balanced(layers, pp, plan)
  {
    var m: nat :| m < layers && Acceptable(layers, pp, m) && plan == Shards(layers, pp, m)
      && forall x: nat | x < layers && Acceptable(layers, pp, x) :: Spread(layers, pp, m) <= Spread(layers, pp, x);
    var c := (layers + pp - 1) / pp;
    PlannableIff(layers, pp);
    CeilBounds(layers, pp);
    AcceptableBounds(layers, pp, c);
    AcceptableBounds(layers, pp, m);
    CeilLeast(layers, pp, m);
    assert Acceptable(layers, pp, c);
    if c < m { SpreadGrows(layers, pp, c, m); }
  }

  // get_dynamic_pipeline_shards: an accepted plan has positive stages summing to the layer
  // count, with the least spread; for three or more stages there is none unless they fit.
  method PlanPipeline(layers: nat, pp: int) returns (r: Result<seq<int>, PlanError>)
    ensures r == Err(MoreStagesThanLayers) <==> layers < pp
    ensures r == Err(NoStage) <==> pp <= layers && pp < 1
    ensures r == Err(NoStrategy) <==> 3 <= pp <= layers && (layers + pp - 1) / pp * (pp - 2) + 2 > layers
    ensures r.Ok? ==> pp >= 1 && GoodPlan(layers, r.value, pp)
    ensures pp == 2 && r.Ok? ==> r.value == [layers / 2, layers - layers / 2]
    ensures 3 <= pp && r.Ok? ==> LeastSpread(layers, pp, r.value) && Balanced(layers, pp, r.value)
  {
    if layers < pp { return Err(MoreStagesThanLayers); }
    if pp < 1 { return Err(NoStage); }
    if pp == 1 {
      assert Sum([layers]) == layers + Sum([]);
      return Ok([layers]);
    }
    if pp == 2 {
      var h := layers / 2;
      SumAppend([h], [layers - h]);
      assert [h] + [layers - h] == [h, layers - h];
      assert Sum([h]) == h + Sum([]) && Sum([layers - h]) == layers - h + Sum([]);
      return Ok([h, layers - h]);
    }
    var strategies: seq<nat> := [];
    var m := 0;
    while m < layers
      invariant 0 <= m <= layers
      invariant forall x | x in strategies :: x < m && Acceptable(layers, pp, x)
      invariant forall x: nat :: x < m && Acceptable(layers, pp, x) ==> x in strategies
    {
      if Acceptable(layers, pp, m) { strategies := strategies + [m]; }
      m := m + 1;
    }
    PlannableIff(layers, pp);
    if strategies == [] { return Err(NoStrategy); }
    var best, i := strategies[0], 1;
    while i < |strategies|
      invariant 1 <= i <= |strategies|
      invariant best in strategies
      invariant forall j | 0 <= j < i :: Spread(layers, pp, best) <= Spread(layers, pp, strategies[j])
    {
      if Spread(layers, pp, strategies[i]) < Spread(layers, pp, best) { best := strategies[i]; }
      i := i + 1;
    }
    ShardsArePlan(layers, pp, best);
    r := Ok(Shards(layers, pp, best));
    LeastIsBalanced(layers, pp, r.value);
  }

  // Five layers on four stages: there are enough layers, and planning still fails on its empty list of strategies.
  lemma FiveLayersFourStages()
    ensures !Plannable(5, 4)
    ensures !exists m: nat :: m < 5 && Acceptable(5, 4, m)
  {
    PlannableIff(5, 4);
  }
}
