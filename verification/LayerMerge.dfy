// Layers cut over pipeline stages by the converter and renumbered by the merger.
module LayerMerge {
  import opened Common

  // A checkpoint key after name mapping: a layer parameter, another parameter, or a skipped
  // one (extra state, or the output layer under tied embeddings).
  datatype Key = Layer(no: nat, param: string) | Other(name: string) | Skip(raw: string)

  type Stage<V> = map<Key, V>

  function Get<V>(m: map<Key, V>, k: Key): Option<V> {
    if k in m then Some(m[k]) else None
  }

  function OrElse<V>(a: Option<V>, b: Option<V>): Option<V> {
    if a.Some? then a else b
  }

  // The merged name of a stage's key when layers_cum is cum.
  function Shift(k: Key, cum: nat): Key {
    match k
    case Layer(no, p) => Layer(no + cum, p)
    case _ => k
  }

  // The value a stage contributes under a merged name: the inverse of Shift.
  function Contribution<V>(stage: Stage<V>, cum: nat, merged: Key): Option<V> {
    match merged
    case Layer(no, p) => if no < cum then None else Get(stage, Layer(no - cum, p))
    case Other(_) => Get(stage, merged)
    case Skip(_) => None
  }

  // The last local layer number seen, zero when the stage holds none.
  ghost predicate IsHandled(keys: set<Key>, h: nat) {
    (forall k | k in keys && k.Layer? :: k.no <= h)
    && (h == 0 || exists k :: k in keys && k.Layer? && k.no == h)
  }

  lemma {:induction false} HandledExists(keys: set<Key>) returns (h: nat)
    ensures IsHandled(keys, h)
  {
    if keys == {} {
      h := 0;
    } else {
      var k :| k in keys;
      h := HandledExists(keys - {k});
      HandledStep(keys - {k}, h, k);
      assert keys - {k} + {k} == keys;
      h := MaxLayer(h, k);
    }
  }

  ghost function Handled(keys: set<Key>): (h: nat)
    ensures IsHandled(keys, h)
  {
    assert exists h: nat :: IsHandled(keys, h) by { var h := HandledExists(keys); }
    var h: nat :| IsHandled(keys, h);
    h
  }

  lemma HandledUnique(keys: set<Key>, h1: nat, h2: nat)
    requires IsHandled(keys, h1) && IsHandled(keys, h2)
    ensures h1 == h2
  {}

  function MaxLayer(h: nat, key: Key): nat {
    if key.Layer? && key.no > h then key.no else h
  }

  lemma HandledStep(keys: set<Key>, h: nat, key: Key)
    requires IsHandled(keys, h)
    ensures IsHandled(keys + {key}, MaxLayer(h, key))
  {
    if key.Layer? && key.no > h {
      assert key in keys + {key};
    } else if h > 0 {
      var k :| k in keys && k.Layer? && k.no == h;
      assert k in keys + {key};
    }
  }

  // layers_cum on entering stage i.
  ghost function Offset<V>(order: seq<Stage<V>>, i: nat): nat
    requires i <= |order|
  {
    if i == 0 then 0 else Offset(order, i - 1) + Handled(order[i - 1].Keys) + 1
  }

  // The merged value under a name after the first n stages: the latest contribution wins.
  ghost function Find<V>(order: seq<Stage<V>>, n: nat, merged: Key): Option<V>
    requires n <= |order|
  {
    if n == 0 then None
    else
      OrElse(Contribution(order[n - 1], Offset(order, n - 1), merged), Find(order, n - 1, merged))
  }

  // The loop over one stage's keys, in any order.
  method MergeStage<V>(stage: Stage<V>, cum: nat, dict: map<Key, V>) returns (dict': map<Key, V>, handled: nat)
    ensures IsHandled(stage.Keys, handled)
    ensures forall k :: Get(dict', k) == OrElse(Contribution(stage, cum, k), Get(dict, k))
  {
    dict', handled := dict, 0;
    var todo := stage.Keys;
    assert stage.Keys - todo == {};
    while todo != {}
      invariant todo <= stage.Keys
      invariant IsHandled(stage.Keys - todo, handled)
      invariant forall k :: Get(dict', k) == OrElse(Contribution(stage - todo, cum, k), Get(dict, k))
      decreases todo
    {
      var key :| key in todo;
      HandledStep(stage.Keys - todo, handled, key);
      assert stage.Keys - (todo - {key}) == (stage.Keys - todo) + {key};
      ContributionStep(stage, todo, key, cum);
      handled := MaxLayer(handled, key);
      if !key.Skip? {
        dict' := dict'[Shift(key, cum) := stage[key]];
      }
      todo := todo - {key};
    }
    assert stage - todo == stage && stage.Keys - todo == stage.Keys;
  }

  lemma ContributionStep<V>(stage: Stage<V>, todo: set<Key>, key: Key, cum: nat)
    requires key in todo && key in stage
    ensures forall k {:trigger Contribution(stage - (todo - {key}), cum, k)} ::
      Contribution(stage - (todo - {key}), cum, k)
      == (if !key.Skip? && k == Shift(key, cum) then Some(stage[key]) else Contribution(stage - todo, cum, k))
  {}

  // The stages in visiting order: virtual stage by virtual stage, pipeline rank by rank.
  function Visit<V>(grid: seq<seq<Stage<V>>>, vpp: nat): seq<Stage<V>>
    requires forall p | 0 <= p < |grid| :: vpp <= |grid[p]|
  {
    if vpp == 0 then [] else Visit(grid, vpp - 1) + Row(grid, vpp - 1, |grid|)
  }

  function Row<V>(grid: seq<seq<Stage<V>>>, v: nat, n: nat): seq<Stage<V>>
    requires n <= |grid| && forall p | 0 <= p < |grid| :: v < |grid[p]|
  {
    seq(n, p requires 0 <= p < n => grid[p][v])
  }

  // Every stage is visited once: virtual stage v of rank p comes after v whole rows and p others.
  lemma {:induction false} VisitAt<V>(grid: seq<seq<Stage<V>>>, vpp: nat, v: nat, p: nat)
    requires v < vpp && p < |grid| && forall q | 0 <= q < |grid| :: vpp <= |grid[q]|
    ensures |Visit(grid, vpp)| == vpp * |grid| && v * |grid| + p < vpp * |grid|
    ensures Visit(grid, vpp)[v * |grid| + p] == grid[p][v]
    decreases vpp
  {
    VisitLength(grid, vpp);
    VisitLength(grid, vpp - 1);
    RowBefore(v, vpp, |grid|, p);
    if v < vpp - 1 { VisitAt(grid, vpp - 1, v, p); }
  }

  lemma RowBefore(v: nat, vpp: nat, n: nat, p: nat)
    requires v < vpp && p < n
    ensures v * n + p < vpp * n && (v < vpp - 1 ==> v * n + p < (vpp - 1) * n)
  {
    MulMono(v + 1, vpp, n);
    if v < vpp - 1 { MulMono(v + 1, vpp - 1, n); }
  }

  lemma {:induction false} VisitLength<V>(grid: seq<seq<Stage<V>>>, vpp: nat)
    requires forall q | 0 <= q < |grid| :: vpp <= |grid[q]|
    ensures |Visit(grid, vpp)| == vpp * |grid|
    decreases vpp
  {
    if vpp > 0 {
      VisitLength(grid, vpp - 1);
      assert vpp * |grid| == (vpp - 1) * |grid| + |grid|;
    }
  }

  // What the dictionary and the running offset hold after the given stages.
  ghost predicate MergedSoFar<V>(dict: map<Key, V>, cum: nat, order: seq<Stage<V>>) {
    cum == Offset(order, |order|) && forall k :: Get(dict, k) == Find(order, |order|, k)
  }

  lemma MergedMore<V>(dict: map<Key, V>, cum: nat, order: seq<Stage<V>>, stage: Stage<V>, dict': map<Key, V>, handled: nat)
    requires MergedSoFar(dict, cum, order) && IsHandled(stage.Keys, handled)
    requires forall k :: Get(dict', k) == OrElse(Contribution(stage, cum, k), Get(dict, k))
    ensures MergedSoFar(dict', cum + handled + 1, order + [stage])
  {
    HandledUnique(stage.Keys, handled, Handled(stage.Keys));
    OneMoreStage(order, stage);
  }

  // _merge_state_dicts over grid[pp_rank][vpp_rank].
  method MergeStateDicts<V>(grid: seq<seq<Stage<V>>>) returns (dict: map<Key, V>)
    requires |grid| > 0 && forall p | 0 <= p < |grid| :: |grid[p]| == |grid[0]|
    ensures var order := Visit(grid, |grid[0]|); forall k :: Get(dict, k) == Find(order, |order|, k)
  {
    dict := map[];
    var cum, v := 0, 0;
    ghost var order: seq<Stage<V>> := [];
    while v < |grid[0]|
      invariant 0 <= v <= |grid[0]|
      invariant order == Visit(grid, v) && MergedSoFar(dict, cum, order)
    {
      var p := 0;
      while p < |grid|
        invariant 0 <= p <= |grid|
        invariant order == Visit(grid, v) + Row(grid, v, p) && MergedSoFar(dict, cum, order)
      {
        var dict', handled := MergeStage(grid[p][v], cum, dict);
        MergedMore(dict, cum, order, grid[p][v], dict', handled);
        VisitRow(grid, v, p);
        dict := dict';
        cum := cum + handled + 1;
        order := order + [grid[p][v]];
        p := p + 1;
      }
      v := v + 1;
    }
  }

  lemma {:induction false} SamePrefix<V>(a: seq<Stage<V>>, b: seq<Stage<V>>, n: nat, k: Key)
    requires n <= |a| && n <= |b| && a[..n] == b[..n]
    ensures Offset(a, n) == Offset(b, n) && Find(a, n, k) == Find(b, n, k)
    decreases n
  {
    if n > 0 {
      assert a[..n - 1] == a[..n][..n - 1] && b[..n - 1] == b[..n][..n - 1];
      assert a[n - 1] == a[..n][n - 1] && b[n - 1] == b[..n][n - 1];
      SamePrefix(a, b, n - 1, k);
    }
  }

  lemma VisitRow<V>(grid: seq<seq<Stage<V>>>, v: nat, p: nat)
    requires p < |grid| && forall q | 0 <= q < |grid| :: v < |grid[q]|
    ensures Row(grid, v, p + 1) == Row(grid, v, p) + [grid[p][v]]
  {}

  lemma OneMoreStage<V>(order: seq<Stage<V>>, stage: Stage<V>)
    ensures Offset(order + [stage], |order| + 1) == Offset(order, |order|) + Handled(stage.Keys) + 1
    ensures forall k :: Find(order + [stage], |order| + 1, k) ==
                          OrElse(Contribution(stage, Offset(order, |order|), k), Find(order, |order|, k))
  {
    SamePrefix(order, order + [stage], |order|, Skip(""));
    forall k ensures Offset(order + [stage], |order|) == Offset(order, |order|)
      && Find(order + [stage], |order|, k) == Find(order, |order|, k)
    {
      SamePrefix(order, order + [stage], |order|, k);
    }
  }

  // ----- the renumbering never collides, and is the converter's numbering exactly without gaps -----

  lemma {:induction false} OffsetMono<V>(order: seq<Stage<V>>, i: nat, j: nat)
    requires i < j <= |order|
    ensures Offset(order, i) + Handled(order[i].Keys) < Offset(order, j)
  {
    if i < j - 1 { OffsetMono(order, i, j - 1); }
  }

  // A stage's layer is found under its shifted number: no other stage writes to that name.
  lemma {:induction false} MergedLayer<V>(order: seq<Stage<V>>, n: nat, i: nat, local: nat, p: string)
    requires i < n <= |order| && Layer(local, p) in order[i]
    ensures Find(order, n, Layer(Offset(order, i) + local, p)) == Some(order[i][Layer(local, p)])
  {
    if i < n - 1 {
      OffsetMono(order, i, n - 1);
      assert Layer(local, p) in order[i].Keys;
      MergedLayer(order, n - 1, i, local, p);
    }
  }

  // Every merged layer comes from some stage's layer.
  lemma {:induction false} LayerOrigin<V>(order: seq<Stage<V>>, n: nat, g: nat, p: string) returns (i: nat)
    requires n <= |order| && Find(order, n, Layer(g, p)).Some?
    ensures i < n && g >= Offset(order, i) && Layer(g - Offset(order, i), p) in order[i]
  {
    if Contribution(order[n - 1], Offset(order, n - 1), Layer(g, p)).Some? {
      i := n - 1;
    } else {
      i := LayerOrigin(order, n - 1, g, p);
    }
  }

  // Any other parameter keeps its name, and the last stage that holds it wins; skipped keys vanish.
  lemma {:induction false} OtherMerged<V>(order: seq<Stage<V>>, n: nat, name: string)
    requires n <= |order|
    ensures Find(order, n, Skip(name)) == None
    ensures match Find(order, n, Other(name))
      case None => forall i :: 0 <= i < n ==> Other(name) !in order[i]
      case Some(value) => exists i :: 0 <= i < n && Other(name) in order[i] && order[i][Other(name)] == value
                                   && forall j :: i < j < n ==> Other(name) !in order[j]
    decreases n
  {
    if n > 0 { OtherMerged(order, n - 1, name); }
  }

  // pipeline_cumsum: the first global layer of stage i.
  function Start(counts: seq<nat>, i: nat): nat
    requires i <= |counts|
  {
    if i == 0 then 0 else Start(counts, i - 1) + counts[i - 1]
  }

  lemma {:induction false} StartMono(counts: seq<nat>, i: nat, j: nat)
    requires i <= j <= |counts|
    ensures Start(counts, i) <= Start(counts, j)
    ensures i < j ==> Start(counts, i) + counts[i] <= Start(counts, j)
  {
    if i < j { StartMono(counts, i, j - 1); }
  }

  function LayerOf<V>(model: seq<map<string, V>>, g: nat, p: string): Option<V> {
    if g < |model| && p in model[g] then Some(model[g][p]) else None
  }

  // A stage holds exactly layers start .. start + n of the model, numbered from zero.
  ghost predicate HoldsLayers<V>(stage: Stage<V>, model: seq<map<string, V>>, start: nat, n: nat) {
    forall j: nat, p {:trigger Get(stage, Layer(j, p))} :: Get(stage, Layer(j, p)) == if j < n then LayerOf(model, start + j, p) else None
  }

  ghost predicate Partitioned<V>(order: seq<Stage<V>>, model: seq<map<string, V>>, counts: seq<nat>) {
    && |order| == |counts| && Start(counts, |counts|) == |model|
    && (forall g | 0 <= g < |model| :: model[g] != map[])
    && forall i | 0 <= i < |order| :: HoldsStage(order, model, counts, i)
  }

  // Stage i holds the converter's slice of the model.
  ghost predicate HoldsStage<V>(order: seq<Stage<V>>, model: seq<map<string, V>>, counts: seq<nat>, i: nat)
    requires i < |order| == |counts|
  {
    HoldsLayers(order[i], model, Start(counts, i), counts[i])
  }

  // No stage without layers comes before a stage with layers.
  predicate NoGap(counts: seq<nat>) {
    forall i, k | 0 <= i < k < |counts| && counts[k] > 0 :: counts[i] > 0
  }

  // The merged layers are the model's.
  ghost predicate SameModel<V>(order: seq<Stage<V>>, model: seq<map<string, V>>) {
    forall g: nat, p :: Find(order, |order|, Layer(g, p)) == LayerOf(model, g, p)
  }

  lemma HandledOfStage<V>(stage: Stage<V>, model: seq<map<string, V>>, start: nat, n: nat)
    requires start + n <= |model| && HoldsLayers(stage, model, start, n)
    requires forall g | 0 <= g < |model| :: model[g] != map[]
    ensures Handled(stage.Keys) + 1 == if n == 0 then 1 else n
  {
    if n > 0 {
      var p :| p in model[start + n - 1];
      assert Get(stage, Layer(n - 1, p)).Some?;
      assert IsHandled(stage.Keys, n - 1) by {
        assert Layer(n - 1, p) in stage.Keys;
        forall k | k in stage.Keys && k.Layer? ensures k.no <= n - 1 {
          assert Get(stage, Layer(k.no, k.param)).Some?;
        }
      }
      HandledUnique(stage.Keys, Handled(stage.Keys), n - 1);
    } else {
      assert IsHandled(stage.Keys, 0) by {
        forall k | k in stage.Keys && k.Layer? ensures k.no <= 0 {
          if k.no > 0 {
            var v := Get(stage, k);
            assert false;
          }
        }
      }
      HandledUnique(stage.Keys, Handled(stage.Keys), 0);
    }
  }

  ghost predicate Counted<V>(order: seq<Stage<V>>, counts: seq<nat>) {
    |order| == |counts|
    && forall i | 0 <= i < |order| :: Handled(order[i].Keys) + 1 == if counts[i] == 0 then 1 else counts[i]
  }

  lemma PartitionedCounted<V>(order: seq<Stage<V>>, model: seq<map<string, V>>, counts: seq<nat>)
    requires Partitioned(order, model, counts)
    ensures Counted(order, counts)
  {
    forall i | 0 <= i < |order|
      ensures Handled(order[i].Keys) + 1 == if counts[i] == 0 then 1 else counts[i]
    {
      StartMono(counts, i, |counts|);
      assert HoldsStage(order, model, counts, i);
      HandledOfStage(order[i], model, Start(counts, i), counts[i]);
    }
  }

  // Every offset is at least the converter's start, and exceeds it as soon as a stage was empty.
  lemma {:induction false} OffsetVsStart<V>(order: seq<Stage<V>>, counts: seq<nat>, i: nat)
    requires Counted(order, counts) && i <= |order|
    ensures Offset(order, i) >= Start(counts, i)
    ensures Offset(order, i) == Start(counts, i) <==> forall j | 0 <= j < i :: counts[j] > 0
  {
    if i > 0 { OffsetVsStart(order, counts, i - 1); }
  }

  lemma {:induction false} StageOfLayer(counts: seq<nat>, n: nat, g: nat) returns (i: nat)
    requires n <= |counts| && g < Start(counts, n)
    ensures i < n && Start(counts, i) <= g < Start(counts, i) + counts[i]
  {
    if g >= Start(counts, n - 1) { i := n - 1; } else { i := StageOfLayer(counts, n - 1, g); }
  }

  // The merger undoes the converter's partition exactly when there is no gap.
  lemma PartitionRoundTripIff<V>(order: seq<Stage<V>>, model: seq<map<string, V>>, counts: seq<nat>)
    requires Partitioned(order, model, counts)
    ensures SameModel(order, model) <==> NoGap(counts)
  {
    if NoGap(counts) {
      GaplessRoundTrip(order, model, counts);
    } else {
      GapMisnumbers(order, model, counts);
    }
  }

  lemma GaplessRoundTrip<V>(order: seq<Stage<V>>, model: seq<map<string, V>>, counts: seq<nat>)
    requires Partitioned(order, model, counts) && NoGap(counts)
    ensures SameModel(order, model)
  {
    forall g: nat, p ensures Find(order, |order|, Layer(g, p)) == LayerOf(model, g, p) {
      if LayerOf(model, g, p).Some? {
        MergedIsThere(order, model, counts, g, p);
      } else if Find(order, |order|, Layer(g, p)).Some? {
        MergedIsModel(order, model, counts, g, p);
      }
    }
  }

  // A layer of the model is merged under its own number.
  lemma MergedIsThere<V>(order: seq<Stage<V>>, model: seq<map<string, V>>, counts: seq<nat>, g: nat, p: string)
    requires Partitioned(order, model, counts) && NoGap(counts) && LayerOf(model, g, p).Some?
    ensures Find(order, |order|, Layer(g, p)) == LayerOf(model, g, p)
  {
    var i := StageOfLayer(counts, |counts|, g);
    MergedFrom(order, model, counts, i, g - Start(counts, i), p);
  }

  // What is merged under a number is the model's layer of that number.
  lemma MergedIsModel<V>(order: seq<Stage<V>>, model: seq<map<string, V>>, counts: seq<nat>, g: nat, p: string)
    requires Partitioned(order, model, counts) && NoGap(counts) && Find(order, |order|, Layer(g, p)).Some?
    ensures Find(order, |order|, Layer(g, p)) == LayerOf(model, g, p)
  {
    var i := LayerOrigin(order, |order|, g, p);
    MergedFrom(order, model, counts, i, g - Offset(order, i), p);
  }

  // Without gaps, a stage's local layer is the model's layer at the merged number.
  lemma MergedFrom<V>(order: seq<Stage<V>>, model: seq<map<string, V>>, counts: seq<nat>, i: nat, local: nat, p: string)
    requires Partitioned(order, model, counts) && NoGap(counts) && i < |order|
    requires local < counts[i] || Layer(local, p) in order[i]
    ensures Offset(order, i) == Start(counts, i)
    ensures LayerOf(model, Start(counts, i) + local, p) == Get(order[i], Layer(local, p))
    ensures Layer(local, p) in order[i] ==>
      Find(order, |order|, Layer(Start(counts, i) + local, p)) == Get(order[i], Layer(local, p))
  {
    StageLayer(order, model, counts, i, local, p);
    PartitionedCounted(order, model, counts);
    GaplessOffset(order, counts, i);
    if Layer(local, p) in order[i] { MergedLayer(order, |order|, i, local, p); }
  }

  lemma StageLayer<V>(order: seq<Stage<V>>, model: seq<map<string, V>>, counts: seq<nat>, i: nat, local: nat, p: string)
    requires Partitioned(order, model, counts) && i < |order| && (local < counts[i] || Layer(local, p) in order[i])
    ensures local < counts[i] && LayerOf(model, Start(counts, i) + local, p) == Get(order[i], Layer(local, p))
  {
    assert HoldsStage(order, model, counts, i);
    HeldLayer(order[i], model, Start(counts, i), counts[i], local, p);
  }

  lemma HeldLayer<V>(stage: Stage<V>, model: seq<map<string, V>>, start: nat, n: nat, local: nat, p: string)
    requires HoldsLayers(stage, model, start, n) && (local < n || Layer(local, p) in stage)
    ensures local < n && LayerOf(model, start + local, p) == Get(stage, Layer(local, p))
  {
    assert Get(stage, Layer(local, p)).Some? <==> Layer(local, p) in stage;
  }

  lemma GaplessOffset<V>(order: seq<Stage<V>>, counts: seq<nat>, i: nat)
    requires Counted(order, counts) && NoGap(counts) && i < |order| && counts[i] > 0
    ensures Offset(order, i) == Start(counts, i)
  {
    OffsetVsStart(order, counts, i);
  }

  lemma {:induction false} LastNonempty(counts: seq<nat>, n: nat) returns (k: nat)
    requires n <= |counts| && Start(counts, n) > 0
    ensures k < n && counts[k] > 0 && Start(counts, k) + counts[k] == Start(counts, n)
    ensures forall f | k < f < n :: counts[f] == 0
  {
    if counts[n - 1] > 0 { k := n - 1; } else { k := LastNonempty(counts, n - 1); }
  }

  lemma GapMisnumbers<V>(order: seq<Stage<V>>, model: seq<map<string, V>>, counts: seq<nat>)
    requires Partitioned(order, model, counts) && !NoGap(counts)
    ensures !SameModel(order, model)
  {
    var e, f :| 0 <= e < f < |counts| && counts[f] > 0 && counts[e] == 0;
    StartMono(counts, f, |counts|);
    var k := LastNonempty(counts, |counts|);
    LastStageMisnumbered(order, model, counts, k, e);
  }

  lemma LastStageMisnumbered<V>(order: seq<Stage<V>>, model: seq<map<string, V>>, counts: seq<nat>, k: nat, e: nat)
    requires Partitioned(order, model, counts) && e < k < |counts| && counts[e] == 0 && counts[k] > 0
    requires Start(counts, k) + counts[k] == |model|
    ensures !SameModel(order, model)
  {
    PartitionedCounted(order, model, counts);
    OffsetAhead(order, counts, k, e);
    var p :| p in model[|model| - 1];
    StageLayer(order, model, counts, k, counts[k] - 1, p);
    StrayLayer(order, model, k, counts[k] - 1, p);
  }

  lemma OffsetAhead<V>(order: seq<Stage<V>>, counts: seq<nat>, k: nat, e: nat)
    requires Counted(order, counts) && e < k < |counts| && counts[e] == 0
    ensures Offset(order, k) > Start(counts, k)
  {
    OffsetVsStart(order, counts, k);
  }

  // A layer numbered past the model's end.
  lemma StrayLayer<V>(order: seq<Stage<V>>, model: seq<map<string, V>>, k: nat, local: nat, p: string)
    requires k < |order| && Layer(local, p) in order[k] && Offset(order, k) + local >= |model|
    ensures !SameModel(order, model)
  {
    MergedLayer(order, |order|, k, local, p);
    assert LayerOf(model, Offset(order, k) + local, p).None?;
  }

  // No two layers of two stages get the same global number, gaps or not.
  lemma RenumberingInjective<V>(order: seq<Stage<V>>, i: nat, a: nat, p: string, j: nat, b: nat)
    requires i < |order| && j < |order| && Layer(a, p) in order[i] && Layer(b, p) in order[j]
    requires Shift(Layer(a, p), Offset(order, i)) == Shift(Layer(b, p), Offset(order, j))
    ensures i == j && a == b
  {
    assert Layer(a, p) in order[i].Keys && Layer(b, p) in order[j].Keys;
    if i < j { OffsetMono(order, i, j); }
    if j < i { OffsetMono(order, j, i); }
  }
}
