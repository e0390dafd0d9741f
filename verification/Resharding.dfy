// Attention and MLP weights between the Hugging Face and the Megatron row layouts.
// A tensor is the sequence of its rows; T is whatever a row holds.
module Resharding {
  import opened Common

  // ----- torch operations on rows -----

  // n consecutive blocks of `size` rows: x.view(n, size, ...).
  function Blocks<T>(x: seq<T>, n: nat, size: nat): (r: seq<seq<T>>)
    requires |x| == n * size
    ensures |r| == n && forall i | 0 <= i < n :: |r[i]| == size
  {
    if n == 0 then []
    else
      MulStep(n, size);
      [x[..size]] + Blocks(x[size..], n - 1, size)
  }

  function View<T>(x: seq<T>, n: nat): seq<seq<T>>
    requires n > 0 && |x| % n == 0
  {
    assert |x| == n * (|x| / n);
    Blocks(x, n, |x| / n)
  }

  // torch.split with one size: every piece is full except possibly the last.
  function SplitEvery<T>(x: seq<T>, size: nat): seq<seq<T>>
    requires size > 0
  {
    if |x| <= size then [x] else [x[..size]] + SplitEvery(x[size..], size)
  }

  // torch.chunk: pieces of ceil(|x| / n) rows, possibly fewer than n of them.
  function Chunk<T>(x: seq<T>, n: nat): seq<seq<T>>
    requires n > 0
  {
    if |x| == 0 then seq(n, _ => [])
    else
      CeilDivPositive(|x|, n);
      SplitEvery(x, (|x| + n - 1) / n)
  }

  lemma CeilDivPositive(len: nat, n: nat)
    requires len > 0 && n > 0
    ensures 0 < (len + n - 1) / n <= len
    ensures ((len + n - 1) / n) * n >= len
  {
    var c := (len + n - 1) / n;
    assert len + n - 1 == c * n + (len + n - 1) % n;
    if c > len {
      MulMono(len + 1, c, n);
      assert (len + 1) * n == len * n + n;
      MulMono(1, n, len);
    }
  }

  // ----- block algebra: view and cat are inverse, chunk is view on even cuts -----

  lemma BlocksOfCat<T>(bs: seq<seq<T>>, size: nat)
    requires forall i | 0 <= i < |bs| :: |bs[i]| == size
    ensures |Cat(bs)| == |bs| * size
    ensures Blocks(Cat(bs), |bs|, size) == bs
  {
    if bs != [] {
      BlocksOfCat(bs[1..], size);
      MulStep(|bs|, size);
      assert Cat(bs)[..size] == bs[0] && Cat(bs)[size..] == Cat(bs[1..]);
    }
  }

  lemma CatOfBlocks<T>(x: seq<T>, n: nat, size: nat)
    requires |x| == n * size
    ensures Cat(Blocks(x, n, size)) == x
  {
    if n > 0 {
      MulStep(n, size);
      CatOfBlocks(x[size..], n - 1, size);
      assert Blocks(x, n, size)[1..] == Blocks(x[size..], n - 1, size);
    }
  }

  lemma CatOfView<T>(x: seq<T>, n: nat)
    requires n > 0 && |x| % n == 0
    ensures Cat(View(x, n)) == x
    ensures |View(x, n)| == n
    ensures forall i | 0 <= i < n :: |View(x, n)[i]| == |x| / n
  {
    assert |x| == n * (|x| / n);
    CatOfBlocks(x, n, |x| / n);
  }

  lemma ViewOfCat<T>(bs: seq<seq<T>>, size: nat)
    requires |bs| > 0 && forall i | 0 <= i < |bs| :: |bs[i]| == size
    ensures |Cat(bs)| == |bs| * size && |Cat(bs)| % |bs| == 0 && |Cat(bs)| / |bs| == size
    ensures View(Cat(bs), |bs|) == bs
  {
    BlocksOfCat(bs, size);
    DivExact(size, |bs|);
  }

  lemma {:induction false} SplitEveryIsBlocks<T>(x: seq<T>, n: nat, size: nat)
    requires n > 0 && size > 0 && |x| == n * size
    ensures SplitEvery(x, size) == Blocks(x, n, size)
  {
    MulStep(n, size);
    if n > 1 {
      MulMono(1, n - 1, size);
      SplitEveryIsBlocks(x[size..], n - 1, size);
    } else {
      assert x[..size] == x;
      assert Blocks(x[size..], 0, size) == [];
    }
  }

  // Cut in order into full pieces and a last one that is not empty.
  ghost predicate CutInto<T>(x: seq<T>, pieces: seq<seq<T>>, size: nat) {
    && Cat(pieces) == x && pieces != [] && (forall i :: 0 <= i < |pieces| - 1 ==> |pieces[i]| == size)
    && 0 < |pieces[|pieces| - 1]| <= size
  }

  lemma {:induction false} SplitEveryCuts<T>(x: seq<T>, size: nat)
    requires size > 0 && |x| > 0
    ensures CutInto(x, SplitEvery(x, size), size)
    decreases |x|
  {
    if |x| <= size {
      assert Cat([x]) == x + Cat([]) == x;
    } else {
      SplitEveryCuts(x[size..], size);
      var rest := SplitEvery(x[size..], size);
      assert ([x[..size]] + rest)[1..] == rest && x == x[..size] + x[size..];
    }
  }

  // torch.chunk cuts into pieces of ceil(|x| / n) rows; without rows it gives n empty pieces.
  lemma ChunkCuts<T>(x: seq<T>, n: nat)
    requires n > 0
    ensures if x == [] then |Chunk(x, n)| == n && forall i :: 0 <= i < n ==> Chunk(x, n)[i] == []
            else CutInto(x, Chunk(x, n), (|x| + n - 1) / n)
  {
    if x != [] {
      CeilDivPositive(|x|, n);
      SplitEveryCuts(x, (|x| + n - 1) / n);
    }
  }

  lemma ChunkIsView<T>(x: seq<T>, n: nat)
    requires n > 0 && |x| % n == 0
    ensures Chunk(x, n) == View(x, n)
  {
    var s := |x| / n;
    assert |x| == s * n;
    if |x| == 0 {
      CatOfView(x, n);
      assert s == 0;
      assert forall i | 0 <= i < n :: View(x, n)[i] == [];
    } else {
      DivUnique(|x| + n - 1, n, s, n - 1);
      SplitEveryIsBlocks(x, n, s);
    }
  }

  // ----- the converter -----

  // Q, K and V rows interleaved per KV group: view, cat along dim 1, flatten.
  function InterleaveQkv<T>(q: seq<T>, k: seq<T>, v: seq<T>, groups: nat): seq<T>
    requires groups > 0 && |q| % groups == 0 && |k| % groups == 0 && |v| % groups == 0
  {
    Cat(Groups(q, k, v, groups))
  }

  function Groups<T>(q: seq<T>, k: seq<T>, v: seq<T>, groups: nat): (r: seq<seq<T>>)
    requires groups > 0 && |q| % groups == 0 && |k| % groups == 0 && |v| % groups == 0
  {
    CatOfView(q, groups);
    CatOfView(k, groups);
    CatOfView(v, groups);
    seq(groups, g requires 0 <= g < groups => View(q, groups)[g] + View(k, groups)[g] + View(v, groups)[g])
  }

  lemma GroupSizes<T>(q: seq<T>, k: seq<T>, v: seq<T>, groups: nat)
    requires groups > 0 && |q| % groups == 0 && |k| % groups == 0 && |v| % groups == 0
    ensures forall g | 0 <= g < groups ::
      |Groups(q, k, v, groups)[g]| == |q| / groups + |k| / groups + |v| / groups
  {
    CatOfView(q, groups);
    CatOfView(k, groups);
    CatOfView(v, groups);
  }

  // The contiguous tensor-parallel cut of the interleaved rows.
  function TpShards<T>(x: seq<T>, tp: nat): seq<seq<T>>
    requires tp > 0 && |x| % tp == 0
  {
    View(x, tp)
  }

  // ----- the merger -----

  datatype Qkv<T> = Qkv(q: seq<T>, k: seq<T>, v: seq<T>)

  datatype MergeError =
    | ZeroKvHeads        // ZeroDivisionError
    | NoShard            // IndexError on tp_data[0]
    | HeadsNotDivisible  // assertion
    | RowsNotDivisible   // assertion
    | NoGroupPerRank     // chunk(0)
    | SplitMismatch      // split sizes do not sum to the chunk

  // The sizes handed to chunk.split: query rows, key rows and value rows of each of n chunks.
  datatype SplitSizes = SplitSizes(n: nat, qs: nat, ks: nat)

  // The guards and the size arithmetic in front of the loops.
  function Sizes<T>(tpData: seq<seq<T>>, heads: nat, kvHeads: nat): (r: Result<SplitSizes, MergeError>)
    ensures r.Ok? ==> r.value.n > 0
  {
    if kvHeads == 0 then Err(ZeroKvHeads)
    else if heads % kvHeads != 0 then Err(HeadsNotDivisible)
    else if tpData == [] then Err(NoShard)
    else if |tpData[0]| % (heads / kvHeads + 2) != 0 then Err(RowsNotDivisible)
    else if kvHeads / |tpData| == 0 then Err(NoGroupPerRank)
    else
      var perKv, n := heads / kvHeads, kvHeads / |tpData|;
      var kvRows := |tpData[0]| / (perKv + 2);
      Ok(SplitSizes(n, Times(kvRows, perKv) / n, kvRows / n))
  }

  function Times(a: nat, b: nat): nat { a * b }

  function AllChunks<T>(tpData: seq<seq<T>>, n: nat): seq<seq<T>>
    requires n > 0
  {
    if tpData == [] then [] else Chunk(tpData[0], n) + AllChunks(tpData[1..], n)
  }

  predicate Splittable<T>(chunks: seq<seq<T>>, qs: nat, ks: nat) {
    forall i | 0 <= i < |chunks| :: |chunks[i]| == qs + ks + ks
  }

  function Column<T>(chunks: seq<seq<T>>, from: nat, to: nat): seq<seq<T>>
    requires from <= to && forall i | 0 <= i < |chunks| :: to <= |chunks[i]|
  {
    seq(|chunks|, i requires 0 <= i < |chunks| => chunks[i][from..to])
  }

  datatype Lists<T> = Lists(q: seq<seq<T>>, k: seq<seq<T>>, v: seq<seq<T>>)

  // q_lst, k_lst and v_lst after splitting all chunks.
  function Columns<T>(chunks: seq<seq<T>>, qs: nat, ks: nat): Result<Lists<T>, MergeError> {
    if !Splittable(chunks, qs, ks) then Err(SplitMismatch)
    else Ok(Lists(Column(chunks, 0, qs), Column(chunks, qs, qs + ks), Column(chunks, qs + ks, qs + ks + ks)))
  }

  function SplitAll<T>(chunks: seq<seq<T>>, qs: nat, ks: nat): Result<Qkv<T>, MergeError> {
    match Columns(chunks, qs, ks)
    case Err(e) => Err(e)
    case Ok(l) => Ok(Qkv(Cat(l.q), Cat(l.k), Cat(l.v)))
  }

  // What merging computes.
  function MergedQkv<T>(tpData: seq<seq<T>>, heads: nat, kvHeads: nat): Result<Qkv<T>, MergeError> {
    match Sizes(tpData, heads, kvHeads)
    case Err(e) => Err(e)
    case Ok(s) => SplitAll(AllChunks(tpData, s.n), s.qs, s.ks)
  }

  lemma ColumnsAppend<T>(xs: seq<seq<T>>, ys: seq<seq<T>>, qs: nat, ks: nat)
    ensures Columns(xs + ys, qs, ks) ==
      match (Columns(xs, qs, ks), Columns(ys, qs, ks))
      case (Ok(a), Ok(b)) => Ok(Lists(a.q + b.q, a.k + b.k, a.v + b.v))
      case _ => Err(SplitMismatch)
  {
    if !Splittable(xs, qs, ks) {
      var i :| 0 <= i < |xs| && |xs[i]| != qs + ks + ks;
      assert (xs + ys)[i] == xs[i];
    } else if !Splittable(ys, qs, ks) {
      var i :| 0 <= i < |ys| && |ys[i]| != qs + ks + ks;
      assert (xs + ys)[|xs| + i] == ys[i];
    } else {
      assert Splittable(xs + ys, qs, ks);
      assert Column(xs + ys, 0, qs) == Column(xs, 0, qs) + Column(ys, 0, qs);
      assert Column(xs + ys, qs, qs + ks) == Column(xs, qs, qs + ks) + Column(ys, qs, qs + ks);
      assert Column(xs + ys, qs + ks, qs + ks + ks) == Column(xs, qs + ks, qs + ks + ks) + Column(ys, qs + ks, qs + ks + ks);
    }
  }

  lemma ColumnsBase<T>(chunk: seq<T>, qs: nat, ks: nat)
    ensures Columns<T>([], qs, ks) == Ok(Lists([], [], []))
    ensures |chunk| == qs + ks + ks ==>
      Columns([chunk], qs, ks) == Ok(Lists([chunk[..qs]], [chunk[qs..qs + ks]], [chunk[qs + ks..]]))
  {
    assert Column<T>([], 0, qs) == Column<T>([], qs, qs + ks) == Column<T>([], qs + ks, qs + ks + ks) == [];
    if |chunk| == qs + ks + ks {
      assert chunk[qs + ks..] == chunk[qs + ks..qs + ks + ks];
      assert Column([chunk], 0, qs) == [chunk[..qs]];
      assert Column([chunk], qs, qs + ks) == [chunk[qs..qs + ks]];
      assert Column([chunk], qs + ks, qs + ks + ks) == [chunk[qs + ks..]];
    }
  }

  lemma AllChunksAppend<T>(a: seq<seq<T>>, b: seq<seq<T>>, n: nat)
    requires n > 0
    ensures AllChunks(a + b, n) == AllChunks(a, n) + AllChunks(b, n)
  {
    if a == [] {
      assert a + b == b;
    } else {
      assert (a + b)[1..] == a[1..] + b;
      AllChunksAppend(a[1..], b, n);
    }
  }

  // The inner loop of the QKV branch: split every chunk of one shard.
  method SplitChunks<T>(chunks: seq<seq<T>>, qs: nat, ks: nat) returns (r: Result<Lists<T>, MergeError>)
    ensures r == Columns(chunks, qs, ks)
  {
    var qList, kList, vList: seq<seq<T>> := [], [], [];
    ColumnsBase<T>([], qs, ks);
    var c := 0;
    while c < |chunks|
      invariant 0 <= c <= |chunks|
      invariant Columns(chunks[..c], qs, ks) == Ok(Lists(qList, kList, vList))
    {
      var chunk := chunks[c];
      if |chunk| != qs + ks + ks {
        return Err(SplitMismatch);
      }
      PrefixStep(chunks, c);
      ColumnsAppend(chunks[..c], [chunk], qs, ks);
      ColumnsBase(chunk, qs, ks);
      qList := qList + [chunk[..qs]];
      kList := kList + [chunk[qs..qs + ks]];
      vList := vList + [chunk[qs + ks..]];
      c := c + 1;
    }
    assert chunks[..c] == chunks;
    r := Ok(Lists(qList, kList, vList));
  }

  // The outer loop over the shards.
  method SplitShards<T>(tpData: seq<seq<T>>, n: nat, qs: nat, ks: nat) returns (r: Result<Qkv<T>, MergeError>)
    requires n > 0
    ensures r == SplitAll(AllChunks(tpData, n), qs, ks)
  {
    var lists := Lists([], [], []);
    ColumnsBase<T>([], qs, ks);
    var t := 0;
    while t < |tpData|
      invariant 0 <= t <= |tpData|
      invariant Columns(AllChunks(tpData[..t], n), qs, ks) == Ok(lists)
    {
      var chunks := Chunk(tpData[t], n);
      AllChunksStep(tpData, t, n);
      ColumnsAppend(AllChunks(tpData[..t], n), chunks, qs, ks);
      var more := SplitChunks(chunks, qs, ks);
      if more.Err? {
        AllChunksAppend(tpData[..t + 1], tpData[t + 1..], n);
        assert tpData == tpData[..t + 1] + tpData[t + 1..];
        ColumnsAppend(AllChunks(tpData[..t + 1], n), AllChunks(tpData[t + 1..], n), qs, ks);
        return Err(SplitMismatch);
      }
      lists := Lists(lists.q + more.value.q, lists.k + more.value.k, lists.v + more.value.v);
      t := t + 1;
    }
    assert tpData[..t] == tpData;
    r := Ok(Qkv(Cat(lists.q), Cat(lists.k), Cat(lists.v)));
  }

  // The QKV branch of _merge_across_tp.
  method MergeQkvAcrossTp<T>(tpData: seq<seq<T>>, heads: nat, kvHeads: nat)
    returns (r: Result<Qkv<T>, MergeError>)
    ensures r == MergedQkv(tpData, heads, kvHeads)
  {
    var sizes := Sizes(tpData, heads, kvHeads);
    if sizes.Err? { return Err(sizes.error); }
    var SplitSizes(n, qs, ks) := sizes.value;
    r := SplitShards(tpData, n, qs, ks);
  }

  lemma AllChunksStep<T>(tpData: seq<seq<T>>, t: nat, n: nat)
    requires n > 0 && t < |tpData|
    ensures AllChunks(tpData[..t + 1], n) == AllChunks(tpData[..t], n) + Chunk(tpData[t], n)
  {
    PrefixStep(tpData, t);
    AllChunksAppend(tpData[..t], [tpData[t]], n);
    assert AllChunks([tpData[t]], n) == Chunk(tpData[t], n) + AllChunks([], n);
  }

  // ----- round trips -----

  // Cutting evenly sized groups across ranks and chunking every rank gives the groups back.
  lemma {:induction false} ShardsChunkToGroups<T>(bs: seq<seq<T>>, size: nat, tp: nat, n: nat)
    requires n > 0 && |bs| == tp * n
    requires forall i | 0 <= i < |bs| :: |bs[i]| == size
    ensures |Cat(bs)| == tp * (n * size)
    ensures AllChunks(Blocks(Cat(bs), tp, n * size), n) == bs
    decreases tp
  {
    BlocksOfCat(bs, size);
    MulAssoc(tp, n, size);
    if tp > 0 {
      MulStep(tp, n);
      MulMono(0, tp - 1, n);
      ShardsChunkToGroups(bs[n..], size, tp - 1, n);
      FirstShard(bs, size, tp, n);
    }
  }

  // The first shard holds the first n groups, the other shards the others.
  lemma FirstShard<T>(bs: seq<seq<T>>, size: nat, tp: nat, n: nat)
    requires tp > 0 && n > 0 && |bs| >= n && forall i | 0 <= i < |bs| :: |bs[i]| == size
    requires |Cat(bs)| == tp * (n * size) && |Cat(bs[n..])| == (tp - 1) * (n * size)
    requires AllChunks(Blocks(Cat(bs[n..]), tp - 1, n * size), n) == bs[n..]
    ensures AllChunks(Blocks(Cat(bs), tp, n * size), n) == bs
  {
    var head, tail := bs[..n], bs[n..];
    assert bs == head + tail;
    CatAppend(head, tail);
    ViewOfCat(head, size);
    ChunkIsView(Cat(head), n);
    BlocksOfBoth(Cat(head), Cat(tail), tp, n * size);
    var shards := Blocks(Cat(bs), tp, n * size);
    assert shards[0] == Cat(head) && shards[1..] == Blocks(Cat(tail), tp - 1, n * size);
  }

  lemma BlocksOfBoth<T>(a: seq<T>, b: seq<T>, n: nat, size: nat)
    requires n > 0 && |a| == size && |b| == (n - 1) * size
    ensures |a + b| == n * size && Blocks(a + b, n, size) == [a] + Blocks(b, n - 1, size)
  {
    MulStep(n, size);
    assert (a + b)[..size] == a && (a + b)[size..] == b;
  }

  // Interleave, cut into tp shards, merge: the original q, k and v come back.
  lemma QkvRoundTrip<T>(q: seq<T>, k: seq<T>, v: seq<T>, heads: nat, kvHeads: nat, headDim: nat, tp: nat)
    requires kvHeads > 0 && heads % kvHeads == 0 && tp > 0 && kvHeads % tp == 0
    requires |q| == heads * headDim && |k| == |v| == kvHeads * headDim
    ensures |q| % kvHeads == 0 && |k| % kvHeads == 0 && |v| % kvHeads == 0
    ensures |InterleaveQkv(q, k, v, kvHeads)| % tp == 0
    ensures MergedQkv(TpShards(InterleaveQkv(q, k, v, kvHeads), tp), heads, kvHeads) == Ok(Qkv(q, k, v))
  {
    var perKv, n := heads / kvHeads, kvHeads / tp;
    assert |q| == (perKv * headDim) * kvHeads && |k| == headDim * kvHeads by {
      assert heads == perKv * kvHeads;
    }
    DivExact(perKv * headDim, kvHeads);
    DivExact(headDim, kvHeads);
    GroupsRoundTrip(q, k, v, kvHeads, headDim, perKv, tp, n);
  }

  lemma GroupsRoundTrip<T>(q: seq<T>, k: seq<T>, v: seq<T>, groups: nat, headDim: nat, perKv: nat, tp: nat, n: nat)
    requires tp > 0 && n > 0 && groups == tp * n && groups > 0
    requires |q| % groups == 0 && |k| % groups == 0 && |v| % groups == 0
    requires |q| / groups == perKv * headDim && |k| / groups == |v| / groups == headDim
    ensures |InterleaveQkv(q, k, v, groups)| % tp == 0
    ensures MergedQkv(TpShards(InterleaveQkv(q, k, v, groups), tp), perKv * groups, groups) == Ok(Qkv(q, k, v))
  {
    var bs, qs := Groups(q, k, v, groups), perKv * headDim;
    ShardsOfGroups(bs, qs + headDim + headDim, tp, n) by { GroupSizes(q, k, v, groups); }
    SizesOfShards(TpShards(Cat(bs), tp), groups, headDim, perKv, n);
    SplitGroups(q, k, v, groups, qs, headDim);
  }

  lemma SizesOfShards<T>(shards: seq<seq<T>>, groups: nat, headDim: nat, perKv: nat, n: nat)
    requires |shards| > 0 && n > 0 && groups == |shards| * n && groups > 0
    requires |shards[0]| == n * (perKv * headDim + headDim + headDim)
    ensures Sizes(shards, perKv * groups, groups) == Ok(SplitSizes(n, perKv * headDim, headDim))
  {
    ShardArithmetic(perKv, headDim, n);
    DivExact(perKv, groups);
    assert groups == n * |shards|;
    DivExact(n, |shards|);
  }

  lemma ShardsOfGroups<T>(bs: seq<seq<T>>, size: nat, tp: nat, n: nat)
    requires tp > 0 && n > 0 && |bs| == tp * n
    requires forall i | 0 <= i < |bs| :: |bs[i]| == size
    ensures |Cat(bs)| % tp == 0
    ensures var shards := TpShards(Cat(bs), tp);
      |shards| == tp && |shards[0]| == n * size && AllChunks(shards, n) == bs
  {
    ShardsChunkToGroups(bs, size, tp, n);
    MulComm(tp, n * size);
    DivExact(n * size, tp);
  }

  lemma SplitGroups<T>(q: seq<T>, k: seq<T>, v: seq<T>, groups: nat, qs: nat, ks: nat)
    requires groups > 0 && |q| % groups == 0 && |k| % groups == 0 && |v| % groups == 0
    requires |q| / groups == qs && |k| / groups == |v| / groups == ks
    ensures SplitAll(Groups(q, k, v, groups), qs, ks) == Ok(Qkv(q, k, v))
  {
    var bs := Groups(q, k, v, groups);
    GroupSizes(q, k, v, groups);
    CatOfView(q, groups);
    CatOfView(k, groups);
    CatOfView(v, groups);
    forall g | 0 <= g < groups
      ensures bs[g][0..qs] == View(q, groups)[g]
      ensures bs[g][qs..qs + ks] == View(k, groups)[g]
      ensures bs[g][qs + ks..qs + ks + ks] == View(v, groups)[g]
    {}
    assert Column(bs, 0, qs) == View(q, groups);
    assert Column(bs, qs, qs + ks) == View(k, groups);
    assert Column(bs, qs + ks, qs + ks + ks) == View(v, groups);
  }

  lemma ShardArithmetic(perKv: nat, headDim: nat, n: nat)
    requires n > 0
    ensures var rows := n * (perKv * headDim + headDim + headDim);
      var kvRows := rows / (perKv + 2);
      rows % (perKv + 2) == 0 && Times(kvRows, perKv) / n == perKv * headDim && kvRows / n == headDim
  {
    var rows := n * (perKv * headDim + headDim + headDim);
    assert perKv * headDim + headDim + headDim == headDim * (perKv + 2);
    assert rows == (n * headDim) * (perKv + 2);
    DivExact(n * headDim, perKv + 2);
    assert (n * headDim) * perKv == (perKv * headDim) * n;
    DivExact(perKv * headDim, n);
    assert n * headDim == headDim * n;
    DivExact(headDim, n);
  }

  // ----- the opposite round trip, and when merging succeeds at all -----

  predicate SameRows<T>(tpData: seq<seq<T>>) {
    forall t | 0 <= t < |tpData| :: |tpData[t]| == |tpData[0]|
  }

  // The floored split sizes never exceed the chunk, and reach it exactly when n divides kvRows.
  lemma SplitArithmetic(kvRows: nat, perKv: nat, n: nat)
    requires n > 0
    ensures var s := Times(kvRows, perKv) / n + kvRows / n + kvRows / n;
      s * n <= kvRows * (perKv + 2) && (s * n == kvRows * (perKv + 2) <==> kvRows % n == 0)
  {
    var a, ra, b, rb := kvRows * perKv / n, kvRows * perKv % n, kvRows / n, kvRows % n;
    assert kvRows * perKv == a * n + ra && kvRows == b * n + rb;
    assert (a + b + b) * n == a * n + b * n + b * n;
    assert kvRows * (perKv + 2) == kvRows * perKv + kvRows + kvRows;
    if rb == 0 {
      assert kvRows * perKv == (b * perKv) * n;
      DivExact(b * perKv, n);
    }
  }

  // Pieces all of size s with s * n <= |x| can only be the even cut.
  lemma EvenChunks<T>(x: seq<T>, n: nat, s: nat)
    requires n > 0 && s * n <= |x|
    requires forall i | 0 <= i < |Chunk(x, n)| :: |Chunk(x, n)[i]| == s
    ensures s * n == |x|
  {
    if |x| > 0 {
      CeilDivPositive(|x|, n);
      var c := (|x| + n - 1) / n;
      assert |SplitEvery(x, c)[0]| == c;
      assert s == |Chunk(x, n)[0]| == c;
    } else {
      assert Chunk(x, n)[0] == [];
    }
  }

  lemma {:induction false} AllChunksEven<T>(tpData: seq<seq<T>>, n: nat, s: nat)
    requires n > 0 && forall t | 0 <= t < |tpData| :: |tpData[t]| == s * n
    ensures |AllChunks(tpData, n)| == |tpData| * n && Cat(AllChunks(tpData, n)) == Cat(tpData)
    ensures forall i | 0 <= i < |AllChunks(tpData, n)| :: |AllChunks(tpData, n)[i]| == s
  {
    if tpData != [] {
      AllChunksEven(tpData[1..], n, s);
      DivExact(s, n);
      ChunkIsView(tpData[0], n);
      CatOfView(tpData[0], n);
      CatAppend(Chunk(tpData[0], n), AllChunks(tpData[1..], n));
      MulStep(|tpData|, n);
    }
  }

  // The guards of the merge in their order, and that a merge past them fails only on a split.
  lemma MergeRefuses<T>(tpData: seq<seq<T>>, heads: nat, kvHeads: nat)
    ensures var r := MergedQkv(tpData, heads, kvHeads);
      && (kvHeads == 0 ==> r == Err(ZeroKvHeads))
      && (kvHeads > 0 && heads % kvHeads != 0 ==> r == Err(HeadsNotDivisible))
      && (kvHeads > 0 && heads % kvHeads == 0 ==>
            && (tpData == [] ==> r == Err(NoShard))
            && (tpData != [] && |tpData[0]| % (heads / kvHeads + 2) != 0 ==> r == Err(RowsNotDivisible))
            && (tpData != [] && |tpData[0]| % (heads / kvHeads + 2) == 0 ==>
                  if |tpData| > kvHeads then r == Err(NoGroupPerRank) else r.Ok? || r == Err(SplitMismatch)))
  {
    if tpData != [] { RanksFit(kvHeads, |tpData|); }
  }

  lemma RanksFit(kvHeads: nat, ranks: nat)
    requires ranks > 0
    ensures kvHeads / ranks == 0 <==> ranks > kvHeads
  {
    if ranks > kvHeads {
      DivUnique(kvHeads, ranks, 0, kvHeads);
    } else {
      DivSplit(kvHeads, ranks);
    }
  }

  // On equally long shards merging succeeds exactly when it passes the guards and the groups of a
  // rank evenly divide the rank's key rows.
  lemma MergeSucceedsIff<T>(tpData: seq<seq<T>>, heads: nat, kvHeads: nat)
    requires SameRows(tpData)
    ensures MergedQkv(tpData, heads, kvHeads).Ok? <==>
      && kvHeads > 0 && heads % kvHeads == 0 && 0 < |tpData| <= kvHeads
      && |tpData[0]| % (heads / kvHeads + 2) == 0
      && kvHeads / |tpData| > 0 && |tpData[0]| / (heads / kvHeads + 2) % (kvHeads / |tpData|) == 0
  {
    if tpData != [] { RanksFit(kvHeads, |tpData|); }
    if Sizes(tpData, heads, kvHeads).Ok? { SplitsIff(tpData, heads, kvHeads); }
  }

  lemma SplitsIff<T>(tpData: seq<seq<T>>, heads: nat, kvHeads: nat)
    requires Sizes(tpData, heads, kvHeads).Ok? && SameRows(tpData)
    ensures MergedQkv(tpData, heads, kvHeads).Ok? <==>
      |tpData[0]| / (heads / kvHeads + 2) % (kvHeads / |tpData|) == 0
  {
    var SplitSizes(n, qs, ks) := Sizes(tpData, heads, kvHeads).value;
    var perKv, rows := heads / kvHeads, |tpData[0]|;
    var kvRows, s := rows / (perKv + 2), qs + ks + ks;
    Exact(rows, perKv + 2);
    SplitArithmetic(kvRows, perKv, n);
    if kvRows % n == 0 {
      AllChunksEven(tpData, n, s);
    } else if Splittable(AllChunks(tpData, n), qs, ks) {
      FirstShardChunks(tpData, n, s);
      EvenChunks(tpData[0], n, s);
      assert false;
    }
  }

  lemma FirstShardChunks<T>(tpData: seq<seq<T>>, n: nat, s: nat)
    requires n > 0 && tpData != []
    requires forall i | 0 <= i < |AllChunks(tpData, n)| :: |AllChunks(tpData, n)[i]| == s
    ensures forall i | 0 <= i < |Chunk(tpData[0], n)| :: |Chunk(tpData[0], n)[i]| == s
  {
    forall i | 0 <= i < |Chunk(tpData[0], n)| ensures |Chunk(tpData[0], n)[i]| == s {
      assert Chunk(tpData[0], n)[i] == AllChunks(tpData, n)[i];
    }
  }

  // The groups the merge sees: each rank's share is floored, so they are all KV groups exactly
  // when the ranks divide them.
  function GroupsSeen(kvHeads: nat, ranks: nat): (n: nat)
    requires ranks > 0
    ensures n == kvHeads <==> kvHeads % ranks == 0
  {
    DivSplit(kvHeads, ranks);
    Times(ranks, kvHeads / ranks)
  }

  // Whatever merging accepts on equally long shards, interleaving its result over the groups it
  // saw gives the shards' rows back.
  lemma MergeThenInterleave<T>(tpData: seq<seq<T>>, heads: nat, kvHeads: nat)
    requires MergedQkv(tpData, heads, kvHeads).Ok? && SameRows(tpData)
    ensures tpData != [] && GroupsSeen(kvHeads, |tpData|) > 0
    ensures var m, groups := MergedQkv(tpData, heads, kvHeads).value, GroupsSeen(kvHeads, |tpData|);
      |m.q| % groups == 0 && |m.k| % groups == 0 && |m.v| % groups == 0
      && InterleaveQkv(m.q, m.k, m.v, groups) == Cat(tpData)
  {
    var s := Sizes(tpData, heads, kvHeads).value;
    ChunksOfMerge(tpData, heads, kvHeads);
    RegroupColumns(AllChunks(tpData, s.n), s.qs, s.ks);
  }

  lemma ChunksOfMerge<T>(tpData: seq<seq<T>>, heads: nat, kvHeads: nat)
    requires MergedQkv(tpData, heads, kvHeads).Ok? && SameRows(tpData)
    ensures tpData != []
    ensures var s := Sizes(tpData, heads, kvHeads).value;
      var chunks := AllChunks(tpData, s.n);
      |chunks| == GroupsSeen(kvHeads, |tpData|) > 0 && Splittable(chunks, s.qs, s.ks) && Cat(chunks) == Cat(tpData)
  {
    var s := Sizes(tpData, heads, kvHeads).value;
    SplitsEvenly(tpData, heads, kvHeads);
    AllChunksEven(tpData, s.n, s.qs + s.ks + s.ks);
    MulMono(1, |tpData|, s.n);
  }

  lemma SizesFit<T>(tpData: seq<seq<T>>, heads: nat, kvHeads: nat)
    requires Sizes(tpData, heads, kvHeads).Ok?
    ensures var s := Sizes(tpData, heads, kvHeads).value;
      (s.qs + s.ks + s.ks) * s.n <= |tpData[0]|
  {
    var perKv := heads / kvHeads;
    Exact(|tpData[0]|, perKv + 2);
    SplitArithmetic(|tpData[0]| / (perKv + 2), perKv, kvHeads / |tpData|);
  }

  lemma SplitsEvenly<T>(tpData: seq<seq<T>>, heads: nat, kvHeads: nat)
    requires MergedQkv(tpData, heads, kvHeads).Ok?
    ensures var s := Sizes(tpData, heads, kvHeads).value;
      (s.qs + s.ks + s.ks) * s.n == |tpData[0]|
  {
    var s := Sizes(tpData, heads, kvHeads).value;
    SizesFit(tpData, heads, kvHeads);
    ChunksFit(tpData, s.n, s.qs + s.ks + s.ks);
  }

  lemma ChunksFit<T>(tpData: seq<seq<T>>, n: nat, s: nat)
    requires n > 0 && tpData != [] && s * n <= |tpData[0]|
    requires forall i | 0 <= i < |AllChunks(tpData, n)| :: |AllChunks(tpData, n)[i]| == s
    ensures s * n == |tpData[0]|
  {
    FirstShardChunks(tpData, n, s);
    EvenChunks(tpData[0], n, s);
  }

  lemma RegroupColumns<T>(chunks: seq<seq<T>>, qs: nat, ks: nat)
    requires |chunks| > 0 && Splittable(chunks, qs, ks)
    ensures var m := SplitAll(chunks, qs, ks).value;
      |m.q| % |chunks| == 0 && |m.k| % |chunks| == 0 && |m.v| % |chunks| == 0
      && Groups(m.q, m.k, m.v, |chunks|) == chunks
  {
    var Lists(q, k, v) := Columns(chunks, qs, ks).value;
    ViewOfCat(q, qs);
    ViewOfCat(k, ks);
    ViewOfCat(v, ks);
    forall g | 0 <= g < |chunks| ensures q[g] + k[g] + v[g] == chunks[g] { ThreeParts(chunks[g], qs, ks); }
  }

  lemma ThreeParts<T>(chunk: seq<T>, qs: nat, ks: nat)
    requires |chunk| == qs + ks + ks
    ensures chunk[0..qs] + chunk[qs..qs + ks] + chunk[qs + ks..qs + ks + ks] == chunk
  {}

  // ----- where each row lands -----

  lemma RowOfCat<T>(bs: seq<seq<T>>, size: nat, g: nat, i: nat)
    requires forall j | 0 <= j < |bs| :: |bs[j]| == size
    requires g < |bs| && i < size
    ensures |Cat(bs)| == |bs| * size && g * size + i < |bs| * size
    ensures Cat(bs)[g * size + i] == bs[g][i]
  {
    BlocksOfCat(bs, size);
    MulMono(g + 1, |bs|, size);
    MulStep(g + 1, size);
    CatAt(bs, size, g, i, g * size);
  }

  lemma {:induction false} CatAt<T>(bs: seq<seq<T>>, size: nat, g: nat, i: nat, start: nat)
    requires forall j | 0 <= j < |bs| :: |bs[j]| == size
    requires g < |bs| && i < size && start == g * size
    ensures start + i < |Cat(bs)| && Cat(bs)[start + i] == bs[g][i]
    decreases g
  {
    if g == 0 {
      MulZero(size);
    } else {
      MulStep(g, size);
      CatAt(bs[1..], size, g - 1, i, start - size);
    }
  }

  lemma RowOfView<T>(x: seq<T>, n: nat, g: nat, i: nat)
    requires n > 0 && |x| % n == 0 && g < n && i < |x| / n
    ensures |View(x, n)| == n && |View(x, n)[g]| == |x| / n
    ensures g * (|x| / n) + i < |x| && View(x, n)[g][i] == x[g * (|x| / n) + i]
  {
    CatOfView(x, n);
    RowOfCat(View(x, n), |x| / n, g, i);
  }

  // Row i of group g, in terms of the group's query, key and value parts.
  function GroupRow<T>(q: seq<T>, k: seq<T>, v: seq<T>, qs: nat, ks: nat, g: nat, i: nat): Option<T> {
    if i < qs then At(q, g * qs + i)
    else if i < qs + ks then At(k, g * ks + (i - qs))
    else At(v, g * ks + (i - qs - ks))
  }

  function At<T>(x: seq<T>, i: int): Option<T> {
    if 0 <= i < |x| then Some(x[i]) else None
  }

  // Group g of the interleaved tensor holds query rows g*qs.., then key rows g*ks.., then value rows g*ks...
  lemma InterleavedRows<T>(q: seq<T>, k: seq<T>, v: seq<T>, groups: nat, qs: nat, ks: nat, size: nat, g: nat, i: nat)
    requires groups > 0 && |q| == qs * groups && |k| == |v| == ks * groups
    requires size == qs + ks + ks && g < groups && i < size
    ensures |q| % groups == 0 && |k| % groups == 0 && |v| % groups == 0
    ensures |InterleaveQkv(q, k, v, groups)| == |q| + |k| + |v|
    ensures GroupRow(q, k, v, qs, ks, g, i).Some?
    ensures At(InterleaveQkv(q, k, v, groups), g * size + i) == GroupRow(q, k, v, qs, ks, g, i)
  {
    DivExact(qs, groups);
    DivExact(ks, groups);
    assert groups * size == qs * groups + ks * groups + ks * groups;
    RowOfGroups(q, k, v, groups, size, g, i);
    GroupRowIsPart(q, k, v, groups, qs, ks, g, i);
  }

  lemma RowOfGroups<T>(q: seq<T>, k: seq<T>, v: seq<T>, groups: nat, size: nat, g: nat, i: nat)
    requires groups > 0 && |q| % groups == 0 && |k| % groups == 0 && |v| % groups == 0
    requires size == |q| / groups + |k| / groups + |v| / groups && g < groups && i < size
    ensures |InterleaveQkv(q, k, v, groups)| == groups * size
    ensures |Groups(q, k, v, groups)[g]| == size
    ensures At(InterleaveQkv(q, k, v, groups), g * size + i) == Some(Groups(q, k, v, groups)[g][i])
  {
    GroupSizes(q, k, v, groups);
    RowOfCat(Groups(q, k, v, groups), size, g, i);
  }

  lemma GroupRowIsPart<T>(q: seq<T>, k: seq<T>, v: seq<T>, groups: nat, qs: nat, ks: nat, g: nat, i: nat)
    requires groups > 0 && |q| % groups == 0 && |k| % groups == 0 && |v| % groups == 0
    requires |q| / groups == qs && |k| / groups == |v| / groups == ks && g < groups && i < qs + ks + ks
    ensures |Groups(q, k, v, groups)[g]| == qs + ks + ks
    ensures GroupRow(q, k, v, qs, ks, g, i) == Some(Groups(q, k, v, groups)[g][i])
  {
    PartOfGroup(q, k, v, groups, qs, ks, g, i);
    if i < qs {
      RowOfView(q, groups, g, i);
    } else if i < qs + ks {
      RowOfView(k, groups, g, i - qs);
    } else {
      RowOfView(v, groups, g, i - qs - ks);
    }
  }

  lemma PartOfGroup<T>(q: seq<T>, k: seq<T>, v: seq<T>, groups: nat, qs: nat, ks: nat, g: nat, i: nat)
    requires groups > 0 && |q| % groups == 0 && |k| % groups == 0 && |v| % groups == 0
    requires |q| / groups == qs && |k| / groups == |v| / groups == ks && g < groups && i < qs + ks + ks
    ensures |View(q, groups)| == |View(k, groups)| == |View(v, groups)| == groups
    ensures |View(q, groups)[g]| == qs && |View(k, groups)[g]| == |View(v, groups)[g]| == ks
    ensures |Groups(q, k, v, groups)[g]| == qs + ks + ks
    ensures Groups(q, k, v, groups)[g][i] ==
      if i < qs then View(q, groups)[g][i]
      else if i < qs + ks then View(k, groups)[g][i - qs]
      else View(v, groups)[g][i - qs - ks]
  {
    CatOfView(q, groups);
    CatOfView(k, groups);
    CatOfView(v, groups);
  }

  // ----- the fused form: view(3, groups, ...).transpose(0, 1).flatten -----

  // Block (c, g) of the (3, groups) view moves to position (g, c).
  function Transposed<T>(blocks: seq<seq<T>>, groups: nat): (r: seq<seq<T>>)
    requires |blocks| == 3 * groups
    ensures |r| == 3 * groups
  {
    seq(3 * groups, r requires 0 <= r < 3 * groups =>
      TransposeIndex(r, groups);
      blocks[r % 3 * groups + r / 3])
  }

  function TransposeQkv<T>(x: seq<T>, groups: nat): seq<T>
    requires groups > 0 && |x| % (3 * groups) == 0
  {
    CatOfView(x, 3 * groups);
    Cat(Transposed(View(x, 3 * groups), groups))
  }

  lemma TransposeIndex(r: nat, groups: nat)
    requires r < 3 * groups
    ensures 0 <= r % 3 * groups + r / 3 < 3 * groups
  {
    MulMono(r % 3, 2, groups);
  }

  lemma BlocksAppend<T>(x: seq<T>, y: seq<T>, n: nat, m: nat, size: nat)
    requires |x| == n * size && |y| == m * size
    ensures |x + y| == (n + m) * size
    ensures Blocks(x + y, n + m, size) == Blocks(x, n, size) + Blocks(y, m, size)
  {
    Distribute(n, m, size);
    CatOfBlocks(x, n, size);
    CatOfBlocks(y, m, size);
    BlocksOfCats(Blocks(x, n, size), Blocks(y, m, size), size);
  }

  lemma BlocksOfCats<T>(xs: seq<seq<T>>, ys: seq<seq<T>>, size: nat)
    requires forall i | 0 <= i < |xs| :: |xs[i]| == size
    requires forall i | 0 <= i < |ys| :: |ys[i]| == size
    ensures |Cat(xs) + Cat(ys)| == (|xs| + |ys|) * size
    ensures Blocks(Cat(xs) + Cat(ys), |xs| + |ys|, size) == xs + ys
  {
    CatAppend(xs, ys);
    BlocksOfCat(xs + ys, size);
  }

  lemma {:induction false} CatByThrees<T>(xs: seq<seq<T>>, a: seq<seq<T>>, b: seq<seq<T>>, c: seq<seq<T>>)
    requires |a| == |b| == |c| && |xs| == 3 * |a|
    requires forall g | 0 <= g < |a| :: xs[3 * g] == a[g] && xs[3 * g + 1] == b[g] && xs[3 * g + 2] == c[g]
    ensures Cat(xs) == Cat(seq(|a|, g requires 0 <= g < |a| => a[g] + b[g] + c[g]))
  {
    var merged := seq(|a|, g requires 0 <= g < |a| => a[g] + b[g] + c[g]);
    if |a| > 0 {
      var n := |a| - 1;
      CatByThrees(xs[..3 * n], a[..n], b[..n], c[..n]);
      assert seq(n, g requires 0 <= g < n => a[..n][g] + b[..n][g] + c[..n][g]) == merged[..n];
      assert merged == merged[..n] + [a[n] + b[n] + c[n]];
      CatSnoc(merged[..n], a[n] + b[n] + c[n]);
      assert xs == xs[..3 * n] + [a[n]] + [b[n]] + [c[n]];
      CatSnoc(xs[..3 * n] + [a[n]] + [b[n]], c[n]);
      CatSnoc(xs[..3 * n] + [a[n]], b[n]);
      CatSnoc(xs[..3 * n], a[n]);
    }
  }

  lemma ViewOfFused<T>(q: seq<T>, k: seq<T>, v: seq<T>, groups: nat, size: nat)
    requires groups > 0 && |q| == |k| == |v| == groups * size
    ensures |q| % groups == 0 && |q| / groups == size && |q + k + v| % (3 * groups) == 0
    ensures View(q + k + v, 3 * groups) == View(q, groups) + View(k, groups) + View(v, groups)
  {
    MulComm(groups, size);
    DivExact(size, groups);
    BlocksAppend(q, k, groups, groups, size);
    BlocksAppend(q + k, v, groups + groups, groups, size);
    MulComm(3 * groups, size);
    DivExact(size, 3 * groups);
  }

  // Both ways of writing the interleaving agree on a fused tensor.
  lemma TransposeIsInterleave<T>(q: seq<T>, k: seq<T>, v: seq<T>, groups: nat, size: nat)
    requires groups > 0 && |q| == |k| == |v| == groups * size
    ensures |q| % groups == 0 && |q + k + v| % (3 * groups) == 0
    ensures TransposeQkv(q + k + v, groups) == InterleaveQkv(q, k, v, groups)
  {
    var x := q + k + v;
    ViewOfFused(q, k, v, groups, size);
    CatOfView(x, 3 * groups);
    CatOfView(q, groups);
    CatOfView(k, groups);
    CatOfView(v, groups);
    var a, b, c := View(q, groups), View(k, groups), View(v, groups);
    var xs := Transposed(View(x, 3 * groups), groups);
    TransposedParts(a, b, c);
    CatByThrees(xs, a, b, c);
    assert Groups(q, k, v, groups) == seq(groups, g requires 0 <= g < groups => a[g] + b[g] + c[g]);
  }

  lemma TransposedParts<T>(a: seq<seq<T>>, b: seq<seq<T>>, c: seq<seq<T>>)
    requires |a| == |b| == |c|
    ensures var xs := Transposed(a + b + c, |a|);
      forall g | 0 <= g < |a| :: xs[3 * g] == a[g] && xs[3 * g + 1] == b[g] && xs[3 * g + 2] == c[g]
  {
    var n := |a|;
    var xs := Transposed(a + b + c, n);
    forall g | 0 <= g < n
      ensures xs[3 * g] == a[g] && xs[3 * g + 1] == b[g] && xs[3 * g + 2] == c[g]
    {
      assert (3 * g) / 3 == g && (3 * g) % 3 == 0 && (3 * g + 1) / 3 == g && (3 * g + 1) % 3 == 1;
      assert (3 * g + 2) / 3 == g && (3 * g + 2) % 3 == 2;
      assert (a + b + c)[1 * n + g] == b[g] && (a + b + c)[2 * n + g] == c[g];
    }
  }

  // ----- fc1: gate and up halves -----

  datatype GateUp<T> = GateUp(gate: seq<T>, up: seq<T>)

  function Halves<T>(tpData: seq<seq<T>>): Option<GateUp<T>> {
    if tpData == [] then Some(GateUp([], []))
    else
      var parts := Chunk(tpData[0], 2);
      if |parts| != 2 then None
      else match Halves(tpData[1..])
        case None => None
        case Some(rest) => Some(GateUp(parts[0] + rest.gate, parts[1] + rest.up))
  }

  // None stands for an empty torch.cat or a chunk(2) that does not unpack into two pieces.
  function MergedGateUp<T>(tpData: seq<seq<T>>): Option<GateUp<T>> {
    if tpData == [] then None else Halves(tpData)
  }

  lemma HalvesSnoc<T>(tpData: seq<seq<T>>, last: seq<T>)
    ensures Halves(tpData + [last]) ==
      match Halves(tpData)
      case None => None
      case Some(h) =>
        var parts := Chunk(last, 2);
        if |parts| != 2 then None else Some(GateUp(h.gate + parts[0], h.up + parts[1]))
  {
    if tpData == [] {
      assert tpData + [last] == [last] && [last][1..] == [];
      var parts := Chunk(last, 2);
      assert forall p | p in parts :: p + [] == p && [] + p == p;
    } else {
      assert (tpData + [last])[1..] == tpData[1..] + [last] && (tpData + [last])[0] == tpData[0];
      HalvesSnoc(tpData[1..], last);
      var first, parts, rest := Chunk(tpData[0], 2), Chunk(last, 2), Halves(tpData[1..]);
      if |first| == 2 && |parts| == 2 && rest.Some? {
        assert first[0] + (rest.value.gate + parts[0]) == (first[0] + rest.value.gate) + parts[0];
        assert first[1] + (rest.value.up + parts[1]) == (first[1] + rest.value.up) + parts[1];
      }
    }
  }

  lemma HalvesPrefix<T>(tpData: seq<seq<T>>, t: nat)
    requires t <= |tpData| && Halves(tpData[..t]).None?
    ensures Halves(tpData).None?
    decreases |tpData| - t
  {
    if t < |tpData| {
      PrefixStep(tpData, t);
      HalvesSnoc(tpData[..t], tpData[t]);
      HalvesPrefix(tpData, t + 1);
    } else {
      assert tpData[..t] == tpData;
    }
  }

  // Each shard's upper half, one row longer if its rows are odd, and its lower half.
  function Uppers<T>(tpData: seq<seq<T>>): seq<seq<T>> {
    seq(|tpData|, i requires 0 <= i < |tpData| => tpData[i][..(|tpData[i]| + 1) / 2])
  }

  function Lowers<T>(tpData: seq<seq<T>>): seq<seq<T>> {
    seq(|tpData|, i requires 0 <= i < |tpData| => tpData[i][(|tpData[i]| + 1) / 2..])
  }

  lemma TwoChunks<T>(x: seq<T>)
    ensures |Chunk(x, 2)| == 2 <==> |x| != 1
    ensures |x| != 1 ==> Chunk(x, 2) == [x[..(|x| + 1) / 2], x[(|x| + 1) / 2..]]
  {
    if |x| > 1 {
      var c := (|x| + 1) / 2;
      assert SplitEvery(x[c..], c) == [x[c..]];
    }
  }

  lemma {:induction false} HalvesAre<T>(tpData: seq<seq<T>>)
    ensures Halves(tpData).Some? <==> forall i :: 0 <= i < |tpData| ==> |tpData[i]| != 1
    ensures Halves(tpData).Some? ==> Halves(tpData).value == GateUp(Cat(Uppers(tpData)), Cat(Lowers(tpData)))
    decreases |tpData|
  {
    if tpData != [] {
      TwoChunks(tpData[0]);
      HalvesAre(tpData[1..]);
      assert tpData == [tpData[0]] + tpData[1..];
      assert Uppers(tpData)[1..] == Uppers(tpData[1..]) && Lowers(tpData)[1..] == Lowers(tpData[1..]);
    }
  }

  // Merging gate and up fails exactly without shards or on a shard of one row; else the gate is the
  // shards' upper halves in rank order and the up their lower halves.
  lemma GateUpMergesIff<T>(tpData: seq<seq<T>>)
    ensures MergedGateUp(tpData).Some? <==> tpData != [] && forall i :: 0 <= i < |tpData| ==> |tpData[i]| != 1
    ensures MergedGateUp(tpData).Some? ==> MergedGateUp(tpData).value == GateUp(Cat(Uppers(tpData)), Cat(Lowers(tpData)))
  {
    HalvesAre(tpData);
  }

  // The linear_fc1 branch of _merge_across_tp.
  method MergeGateUpAcrossTp<T>(tpData: seq<seq<T>>) returns (r: Option<GateUp<T>>)
    ensures r == MergedGateUp(tpData)
  {
    var gateList, upList: seq<seq<T>> := [], [];
    var t := 0;
    while t < |tpData|
      invariant 0 <= t <= |tpData|
      invariant Halves(tpData[..t]) == Some(GateUp(Cat(gateList), Cat(upList)))
    {
      var parts := Chunk(tpData[t], 2);
      PrefixStep(tpData, t);
      HalvesSnoc(tpData[..t], tpData[t]);
      if |parts| != 2 {
        HalvesPrefix(tpData, t + 1);
        return None;
      }
      CatSnoc(gateList, parts[0]);
      CatSnoc(upList, parts[1]);
      gateList, upList := gateList + [parts[0]], upList + [parts[1]];
      t := t + 1;
    }
    assert tpData[..t] == tpData;
    if tpData == [] { return None; }
    r := Some(GateUp(Cat(gateList), Cat(upList)));
  }

  // Each rank holds its slice of gate followed by its slice of up.
  function GateUpShards<T>(gates: seq<seq<T>>, ups: seq<seq<T>>): seq<seq<T>>
    requires |gates| == |ups|
  {
    seq(|gates|, t requires 0 <= t < |gates| => gates[t] + ups[t])
  }

  lemma ChunkOfPair<T>(a: seq<T>, b: seq<T>)
    requires |a| == |b|
    ensures Chunk(a + b, 2) == [a, b]
  {
    ViewOfCat([a, b], |a|);
    assert Cat([a, b]) == a + (b + Cat([]));
    assert a + b == Cat([a, b]);
    ChunkIsView(a + b, 2);
  }

  lemma {:induction false} PairedShards<T>(gates: seq<seq<T>>, ups: seq<seq<T>>)
    requires |gates| == |ups| && forall t | 0 <= t < |gates| :: |gates[t]| == |ups[t]|
    ensures Halves(GateUpShards(gates, ups)) == Some(GateUp(Cat(gates), Cat(ups)))
  {
    if gates != [] {
      PairedShards(gates[1..], ups[1..]);
      assert GateUpShards(gates, ups)[1..] == GateUpShards(gates[1..], ups[1..]);
      ChunkOfPair(gates[0], ups[0]);
    }
  }

  // With every rank holding matching slices, gate and up come back for every tp.
  lemma GateUpRoundTrip<T>(gate: seq<T>, up: seq<T>, tp: nat)
    requires tp > 0 && |gate| == |up| && |gate| % tp == 0
    ensures MergedGateUp(GateUpShards(View(gate, tp), View(up, tp))) == Some(GateUp(gate, up))
  {
    CatOfView(gate, tp);
    CatOfView(up, tp);
    PairedShards(View(gate, tp), View(up, tp));
  }

  lemma UncutGateUp<T>(gate: seq<T>, up: seq<T>)
    requires |gate| == |up|
    ensures MergedGateUp(TpShards(gate + up, 1)) == Some(GateUp(gate, up))
  {
    ViewOfCat([gate + up], |gate| + |up|);
    assert Cat([gate + up]) == (gate + up) + Cat([]) == gate + up;
    assert TpShards(gate + up, 1) == [gate + up];
    PairedShards([gate], [up]);
    assert GateUpShards([gate], [up]) == [gate + up];
    assert Cat([gate]) == gate + Cat([]) == gate && Cat([up]) == up + Cat([]) == up;
  }

  // A contiguous cut of [gate; up] is undone by the merger for all weights only without tensor parallelism.
  lemma ContiguousGateUpIff(rows: nat, tp: nat)
    requires rows > 0 && tp > 0 && (rows + rows) % tp == 0
    ensures (forall gate: seq<int>, up: seq<int> | |gate| == |up| == rows ::
               MergedGateUp(TpShards(gate + up, tp)) == Some(GateUp(gate, up)))
            <==> tp == 1
  {
    if tp == 1 {
      forall gate: seq<int>, up: seq<int> | |gate| == |up| == rows
        ensures MergedGateUp(TpShards(gate + up, tp)) == Some(GateUp(gate, up))
      {
        UncutGateUp(gate, up);
      }
    } else {
      var gate, up := seq(rows, i => i), seq(rows, i => rows + i);
      ContiguousCutMixes(gate, up, tp);
    }
  }

  lemma ContiguousCutMixes(gate: seq<int>, up: seq<int>, tp: nat)
    requires |gate| == |up| > 0 && tp >= 2 && (|gate| + |up|) % tp == 0
    requires forall i | 0 <= i < |gate| :: gate[i] == i && up[i] == |gate| + i
    ensures MergedGateUp(TpShards(gate + up, tp)) != Some(GateUp(gate, up))
  {
    var x := gate + up;
    var shards, s := View(x, tp), |x| / tp;
    CatOfView(x, tp);
    assert |x| == s * tp;
    MulMono(2, tp, s);
    assert s <= |gate|;
    if s == 0 { assert false; }
    var h := Halves(shards);
    if h.Some? {
      var first, second := Chunk(shards[0], 2), Chunk(shards[1], 2);
      assert h.value.gate == first[0] + Halves(shards[1..]).value.gate;
      assert shards[1..][0] == shards[1];
      assert Halves(shards[1..]).value.gate == second[0] + Halves(shards[1..][1..]).value.gate;
      CeilDivPositive(s, 2);
      var c := (s + 1) / 2;
      assert |first[0]| == c && second[0] == shards[1][..c] && s > 1;
      assert h.value.gate[c] == shards[1][0];
      RowOfView(x, tp, 1, 0);
      assert h.value.gate[c] == s && c < s && gate[c] == c;
    }
  }
}
