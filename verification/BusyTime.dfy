// Busy time from request intervals: the merge loop measures the union of the intervals.
// Times are integer ticks.
module BusyTime {
  import opened Common

  datatype Interval = Interval(start: int, end: int)

  predicate Runs(x: Interval, t: int) { x.start <= t < x.end }

  function Range(lo: int, hi: int): set<int>
    decreases hi - lo
  {
    if hi <= lo then {} else Range(lo, hi - 1) + {hi - 1}
  }

  function Ticks(x: Interval): set<int> { Range(x.start, x.end) }

  lemma {:induction false} InRange(lo: int, hi: int, t: int)
    ensures t in Range(lo, hi) <==> lo <= t < hi
    decreases hi - lo
  {
    if lo < hi { InRange(lo, hi - 1, t); }
  }

  lemma {:induction false} RangeSize(lo: int, hi: int)
    ensures |Range(lo, hi)| == if lo <= hi then hi - lo else 0
    decreases hi - lo
  {
    if lo < hi {
      RangeSize(lo, hi - 1);
      InRange(lo, hi - 1, hi - 1);
    }
  }

  // The ticks covered by some of the first n intervals.
  function CoverTo(xs: seq<Interval>, n: nat): set<int>
    requires n <= |xs|
  {
    if n == 0 then {} else CoverTo(xs, n - 1) + Ticks(xs[n - 1])
  }

  function Cover(xs: seq<Interval>): set<int> { CoverTo(xs, |xs|) }

  predicate Reversed(x: Interval) { x.end < x.start }

  predicate Proper(xs: seq<Interval>) { forall i :: 0 <= i < |xs| ==> !Reversed(xs[i]) }

  // An interval that begins earlier still runs (or just ends) when x starts.
  predicate Sheltered(x: Interval, all: seq<Interval>) { ShelteredTo(x, all, |all|) }

  predicate ShelteredTo(x: Interval, all: seq<Interval>, n: nat)
    requires n <= |all|
  {
    n > 0 && (Shelters(all[n - 1], x) || ShelteredTo(x, all, n - 1))
  }

  predicate Shelters(p: Interval, x: Interval) { p.start < x.start <= p.end }

  lemma {:induction false} ShelteredAt(x: Interval, all: seq<Interval>, n: nat)
    requires n <= |all|
    ensures ShelteredTo(x, all, n) <==> exists i :: 0 <= i < n && Shelters(all[i], x)
  {
    if n > 0 { ShelteredAt(x, all, n - 1); }
  }

  // What a reversed interval takes off the total, unless another interval hides it.
  function Loss(x: Interval, all: seq<Interval>): nat {
    if Reversed(x) && !Sheltered(x, all) then x.start - x.end else 0
  }

  function LossesTo(xs: seq<Interval>, n: nat, all: seq<Interval>): nat
    requires n <= |xs|
  {
    if n == 0 then 0 else LossesTo(xs, n - 1, all) + Loss(xs[n - 1], all)
  }

  function Losses(xs: seq<Interval>, all: seq<Interval>): nat { LossesTo(xs, |xs|, all) }

  // The measure of the union, less what unsheltered reversed intervals take off.
  function Busy(xs: seq<Interval>): int { |Cover(xs)| - Losses(xs, xs) }

  function LengthTo(xs: seq<Interval>, n: nat): int
    requires n <= |xs|
  {
    if n == 0 then 0 else LengthTo(xs, n - 1) + (xs[n - 1].end - xs[n - 1].start)
  }

  function Length(xs: seq<Interval>): int { LengthTo(xs, |xs|) }

  lemma {:induction false} InCoverTo(xs: seq<Interval>, n: nat, t: int)
    requires n <= |xs|
    ensures t in CoverTo(xs, n) <==> exists i :: 0 <= i < n && Runs(xs[i], t)
  {
    if n > 0 {
      InCoverTo(xs, n - 1, t);
      InRange(xs[n - 1].start, xs[n - 1].end, t);
    }
  }

  lemma InCover(xs: seq<Interval>, t: int)
    ensures t in Cover(xs) <==> exists x | x in xs :: Runs(x, t)
  {
    InCoverTo(xs, |xs|, t);
    if i :| 0 <= i < |xs| && Runs(xs[i], t) { assert xs[i] in xs; }
  }

  lemma CoverSame(xs: seq<Interval>, ys: seq<Interval>)
    requires forall x :: x in xs <==> x in ys
    ensures Cover(xs) == Cover(ys)
  {
    forall t ensures t in Cover(xs) <==> t in Cover(ys) {
      InCover(xs, t);
      InCover(ys, t);
    }
  }

  // A prefix is measured alike whatever follows it.
  lemma {:induction false} CoverPrefix(xs: seq<Interval>, ys: seq<Interval>, n: nat)
    requires n <= |xs|
    ensures CoverTo(xs + ys, n) == CoverTo(xs, n)
  {
    if n > 0 { CoverPrefix(xs, ys, n - 1); }
  }

  lemma {:induction false} LossesPrefix(xs: seq<Interval>, ys: seq<Interval>, n: nat, all: seq<Interval>)
    requires n <= |xs|
    ensures LossesTo(xs + ys, n, all) == LossesTo(xs, n, all)
  {
    if n > 0 { LossesPrefix(xs, ys, n - 1, all); }
  }

  lemma {:induction false} LengthPrefix(xs: seq<Interval>, ys: seq<Interval>, n: nat)
    requires n <= |xs|
    ensures LengthTo(xs + ys, n) == LengthTo(xs, n)
  {
    if n > 0 { LengthPrefix(xs, ys, n - 1); }
  }

  lemma CoverSnoc(xs: seq<Interval>, x: Interval)
    ensures Cover(xs + [x]) == Cover(xs) + Ticks(x)
  {
    CoverPrefix(xs, [x], |xs|);
  }

  lemma LossesSnoc(xs: seq<Interval>, x: Interval, all: seq<Interval>)
    ensures Losses(xs + [x], all) == Losses(xs, all) + Loss(x, all)
  {
    LossesPrefix(xs, [x], |xs|, all);
  }

  lemma LengthSnoc(xs: seq<Interval>, x: Interval)
    ensures Length(xs + [x]) == Length(xs) + (x.end - x.start)
  {
    LengthPrefix(xs, [x], |xs|);
  }

  lemma {:induction false} LossesJoin(xs: seq<Interval>, ys: seq<Interval>, n: nat, all: seq<Interval>)
    requires n <= |ys|
    ensures LossesTo(xs + ys, |xs| + n, all) == Losses(xs, all) + LossesTo(ys, n, all)
  {
    if n == 0 { LossesPrefix(xs, ys, |xs|, all); } else { LossesJoin(xs, ys, n - 1, all); }
  }

  lemma LossesRemove(before: seq<Interval>, x: Interval, after: seq<Interval>, all: seq<Interval>)
    ensures Losses(before + [x] + after, all) == Losses(before + after, all) + Loss(x, all)
  {
    LossesJoin(before + [x], after, |after|, all);
    LossesSnoc(before, x, all);
    LossesJoin(before, after, |after|, all);
  }

  lemma RemoveBoth(xs: seq<Interval>, x: Interval, before: seq<Interval>, after: seq<Interval>)
    requires multiset(xs + [x]) == multiset(before + [x] + after)
    ensures multiset(xs) == multiset(before + after)
  {
    assert multiset(xs) == multiset(xs + [x]) - multiset{x};
    assert multiset(before + after) == multiset(before + [x] + after) - multiset{x};
  }

  lemma {:induction false} LossesPermuted(xs: seq<Interval>, ys: seq<Interval>, all: seq<Interval>)
    requires multiset(xs) == multiset(ys)
    ensures Losses(xs, all) == Losses(ys, all)
  {
    if xs == [] {
      assert |multiset(ys)| == 0;
    } else {
      var init, x := xs[..|xs| - 1], xs[|xs| - 1];
      assert xs == init + [x];
      assert x in multiset(ys);
      var k :| 0 <= k < |ys| && ys[k] == x;
      assert ys == ys[..k] + [x] + ys[k + 1..];
      RemoveBoth(init, x, ys[..k], ys[k + 1..]);
      LossesPermuted(init, ys[..k] + ys[k + 1..], all);
      LossesRemove(ys[..k], x, ys[k + 1..], all);
      LossesSnoc(init, x, all);
    }
  }

  lemma SameLoss(x: Interval, all: seq<Interval>, all': seq<Interval>)
    requires forall y :: y in all <==> y in all'
    ensures Loss(x, all) == Loss(x, all')
  {
    ShelteredAt(x, all, |all|);
    ShelteredAt(x, all', |all'|);
    if i :| 0 <= i < |all| && Shelters(all[i], x) { assert all[i] in all'; }
    if i :| 0 <= i < |all'| && Shelters(all'[i], x) { assert all'[i] in all; }
  }

  lemma {:induction false} SameLosses(xs: seq<Interval>, n: nat, all: seq<Interval>, all': seq<Interval>)
    requires n <= |xs| && forall y :: y in all <==> y in all'
    ensures LossesTo(xs, n, all) == LossesTo(xs, n, all')
  {
    if n > 0 {
      SameLosses(xs, n - 1, all, all');
      SameLoss(xs[n - 1], all, all');
    }
  }

  lemma Members(xs: seq<Interval>, ys: seq<Interval>)
    requires multiset(xs) == multiset(ys)
    ensures forall x :: x in xs <==> x in ys
  {
    forall x ensures x in xs <==> x in ys {
      assert x in xs <==> x in multiset(xs);
      assert x in ys <==> x in multiset(ys);
    }
  }

  // The measure does not depend on the order of the intervals.
  lemma BusyPermuted(xs: seq<Interval>, ys: seq<Interval>)
    requires multiset(xs) == multiset(ys)
    ensures Busy(xs) == Busy(ys)
  {
    Members(xs, ys);
    CoverSame(xs, ys);
    LossesPermuted(xs, ys, xs);
    SameLosses(ys, |ys|, xs, ys);
  }

  // ----- sorting -----

  predicate AtMost(a: Interval, b: Interval) { a.start < b.start || (a.start == b.start && a.end <= b.end) }

  predicate Sorted(xs: seq<Interval>) { forall i, j :: 0 <= i < j < |xs| ==> AtMost(xs[i], xs[j]) }

  lemma Inserted(before: seq<Interval>, after: seq<Interval>, x: Interval)
    requires Sorted(before) && Sorted(after)
    requires forall i :: 0 <= i < |before| ==> AtMost(before[i], x)
    requires forall i :: 0 <= i < |after| ==> AtMost(x, after[i])
    ensures Sorted(before + [x] + after)
  {
    var zs := before + [x] + after;
    forall i, j | 0 <= i < j < |zs| ensures AtMost(zs[i], zs[j]) {
      if i < |before| && j > |before| { assert AtMost(before[i], x) && AtMost(x, after[j - |before| - 1]); }
    }
  }

  method Sort(xs: seq<Interval>) returns (ys: seq<Interval>)
    ensures Sorted(ys) && multiset(ys) == multiset(xs)
  {
    ys := [];
    for i := 0 to |xs|
      invariant Sorted(ys) && multiset(ys) == multiset(xs[..i])
    {
      var k := |ys|;
      while k > 0 && !AtMost(ys[k - 1], xs[i])
        invariant 0 <= k <= |ys|
        invariant forall j :: k <= j < |ys| ==> AtMost(xs[i], ys[j])
      {
        k := k - 1;
      }
      assert forall j :: 0 <= j < k ==> AtMost(ys[j], ys[k - 1]);
      Inserted(ys[..k], ys[k..], xs[i]);
      assert ys == ys[..k] + ys[k..] && xs[..i + 1] == xs[..i] + [xs[i]];
      ys := ys[..k] + [xs[i]] + ys[k..];
    }
    assert xs[..|xs|] == xs;
  }

  // ----- merging -----

  // Blocks in order, with a gap after each.
  predicate Separated(blocks: seq<Interval>) {
    forall i :: 0 <= i < |blocks| - 1 ==> blocks[i].end < blocks[i + 1].start && blocks[i].start <= blocks[i + 1].start
  }

  // What the last block says about the first n intervals.
  ghost predicate LastBlock(xs: seq<Interval>, n: nat, last: Interval)
    requires n <= |xs|
  {
    && (exists i :: 0 <= i < n && xs[i].end == last.end)
    && (exists i :: 0 <= i < n && xs[i].start == last.start)
    && (forall i :: 0 <= i < n ==> xs[i].end <= last.end || xs[i].end < last.start)
    && Ticks(last) <= CoverTo(xs, n)
  }

  // The blocks that the first n intervals merge into.
  ghost predicate Merged(xs: seq<Interval>, n: nat, blocks: seq<Interval>)
    requires n <= |xs|
  {
    && Separated(blocks) && (blocks == [] <==> n == 0)
    && Counted(xs, n, blocks)
    && (blocks != [] ==> LastBlock(xs, n, blocks[|blocks| - 1]))
    && (Proper(xs) ==> Proper(blocks))
  }

  predicate Counted(xs: seq<Interval>, n: nat, blocks: seq<Interval>)
    requires n <= |xs|
  {
    Cover(blocks) == CoverTo(xs, n) && Length(blocks) == |CoverTo(xs, n)| - LossesTo(xs, n, xs)
  }

  // Every covered tick lies before the last block's end, or before its start.
  lemma CoverBefore(xs: seq<Interval>, n: nat, last: Interval, t: int)
    requires n <= |xs| && LastBlock(xs, n, last) && t in CoverTo(xs, n)
    ensures t < last.end || t < last.start
  {
    InCoverTo(xs, n, t);
    var i :| 0 <= i < n && Runs(xs[i], t);
  }

  lemma DisjointSize(a: set<int>, b: set<int>)
    requires a !! b
    ensures |a + b| == |a| + |b|
  {}

  // Appending a block: x starts after everything seen.
  ghost predicate Fresh(xs: seq<Interval>, n: nat, blocks: seq<Interval>)
    requires n < |xs|
  {
    blocks != [] ==> LastBlock(xs, n, blocks[|blocks| - 1]) && blocks[|blocks| - 1].end < xs[n].start
  }

  lemma AllBefore(xs: seq<Interval>, n: nat, blocks: seq<Interval>)
    requires Sorted(xs) && n < |xs| && (blocks == [] <==> n == 0) && Fresh(xs, n, blocks)
    ensures forall i :: 0 <= i < n ==> xs[i].end < xs[n].start
    ensures forall t | t in CoverTo(xs, n) :: t < xs[n].start
    ensures blocks != [] ==> blocks[|blocks| - 1].start <= xs[n].start
  {
    if blocks != [] {
      var last := blocks[|blocks| - 1];
      var j :| 0 <= j < n && xs[j].start == last.start;
      assert AtMost(xs[j], xs[n]);
      forall t | t in CoverTo(xs, n) ensures t < xs[n].start { CoverBefore(xs, n, last, t); }
    }
  }

  lemma AppendCounts(xs: seq<Interval>, n: nat, blocks: seq<Interval>)
    requires Sorted(xs) && n < |xs| && (blocks == [] <==> n == 0) && Fresh(xs, n, blocks) && Counted(xs, n, blocks)
    ensures Counted(xs, n + 1, blocks + [xs[n]])
  {
    var x := xs[n];
    AllBefore(xs, n, blocks);
    CoverSnoc(blocks, x);
    LengthSnoc(blocks, x);
    RangeSize(x.start, x.end);
    forall t | t in CoverTo(xs, n) ensures t !in Ticks(x) { InRange(x.start, x.end, t); }
    DisjointSize(CoverTo(xs, n), Ticks(x));
    ShelteredAt(x, xs, |xs|);
    forall i | 0 <= i < |xs| ensures !Shelters(xs[i], x) { if n < i { assert AtMost(x, xs[i]); } }
  }

  lemma AppendBlock(xs: seq<Interval>, n: nat, blocks: seq<Interval>)
    requires Sorted(xs) && n < |xs| && Merged(xs, n, blocks) && Fresh(xs, n, blocks)
    ensures Merged(xs, n + 1, blocks + [xs[n]])
  {
    AllBefore(xs, n, blocks);
    AppendCounts(xs, n, blocks);
    AppendLast(xs, n, blocks);
  }

  lemma AppendLast(xs: seq<Interval>, n: nat, blocks: seq<Interval>)
    requires Sorted(xs) && n < |xs| && (blocks == [] <==> n == 0) && Fresh(xs, n, blocks)
    ensures LastBlock(xs, n + 1, xs[n])
  {
    AllBefore(xs, n, blocks);
    assert xs[n].end == xs[n].end && xs[n].start == xs[n].start;
  }

  function Extended(last: Interval, x: Interval): Interval { Interval(last.start, if x.end > last.end then x.end else last.end) }

  // Extending a covered block adds only the ticks past its old end.
  lemma GrownCover(had: set<int>, last: Interval, x: Interval, t: int)
    requires Ticks(last) <= had && last.start <= x.start <= last.end
    ensures var grown := Range(last.end, Extended(last, x).end);
      (t in had + Ticks(x) <==> t in had + grown) && (t in had + Ticks(Extended(last, x)) <==> t in had + grown)
  {
    InRange(last.start, last.end, t);
    InRange(x.start, x.end, t);
    InRange(last.start, Extended(last, x).end, t);
    InRange(last.end, Extended(last, x).end, t);
  }

  lemma ExtendCover(xs: seq<Interval>, n: nat, last: Interval)
    requires n < |xs| && LastBlock(xs, n, last) && last.start <= xs[n].start <= last.end
    ensures var block := Extended(last, xs[n]);
      CoverTo(xs, n + 1) == CoverTo(xs, n) + Ticks(block) && Ticks(block) <= CoverTo(xs, n + 1)
      && |CoverTo(xs, n + 1)| == |CoverTo(xs, n)| + (block.end - last.end)
  {
    var had, block := CoverTo(xs, n), Extended(last, xs[n]);
    var grown := Range(last.end, block.end);
    forall t | t in grown ensures t !in had {
      InRange(last.end, block.end, t);
      if t in had { CoverBefore(xs, n, last, t); }
    }
    assert had + Ticks(xs[n]) == had + grown && had + Ticks(block) == had + grown by {
      forall t ensures (t in had + Ticks(xs[n]) <==> t in had + grown) && (t in had + Ticks(block) <==> t in had + grown) {
        GrownCover(had, last, xs[n], t);
      }
    }
    RangeSize(last.end, block.end);
    DisjointSize(had, grown);
  }

  // A reversed interval that reaches into the last block is sheltered by an interval of it.
  lemma ShelteredByBlock(xs: seq<Interval>, n: nat, last: Interval)
    requires Sorted(xs) && n < |xs| && LastBlock(xs, n, last) && xs[n].start <= last.end
    ensures Loss(xs[n], xs) == 0 && last.start <= xs[n].start
  {
    var s :| 0 <= s < n && xs[s].start == last.start;
    var e :| 0 <= e < n && xs[e].end == last.end;
    assert AtMost(xs[s], xs[n]) && AtMost(xs[e], xs[n]);
    if Reversed(xs[n]) {
      assert Shelters(xs[e], xs[n]);
      ShelteredAt(xs[n], xs, |xs|);
    }
  }

  lemma ExtendCounts(xs: seq<Interval>, n: nat, init: seq<Interval>, last: Interval)
    requires Sorted(xs) && n < |xs| && LastBlock(xs, n, last) && xs[n].start <= last.end && Counted(xs, n, init + [last])
    ensures Counted(xs, n + 1, init + [Extended(last, xs[n])])
  {
    var block := Extended(last, xs[n]);
    ShelteredByBlock(xs, n, last);
    ExtendCover(xs, n, last);
    CoverSnoc(init, last);
    CoverSnoc(init, block);
    LengthSnoc(init, last);
    LengthSnoc(init, block);
    forall t | t in Ticks(last) ensures t in Ticks(block) {
      InRange(last.start, last.end, t);
      InRange(last.start, block.end, t);
    }
  }

  lemma ExtendLast(xs: seq<Interval>, n: nat, last: Interval)
    requires Sorted(xs) && n < |xs| && LastBlock(xs, n, last) && xs[n].start <= last.end
    ensures LastBlock(xs, n + 1, Extended(last, xs[n]))
  {
    ShelteredByBlock(xs, n, last);
    ExtendCover(xs, n, last);
    ExtendEnds(xs, n, last);
  }

  // Where the grown block starts and ends, some interval does.
  lemma ExtendEnds(xs: seq<Interval>, n: nat, last: Interval)
    requires n < |xs| && LastBlock(xs, n, last)
    ensures exists s :: 0 <= s < n + 1 && xs[s].start == Extended(last, xs[n]).start
    ensures exists e :: 0 <= e < n + 1 && xs[e].end == Extended(last, xs[n]).end
  {
    var block := Extended(last, xs[n]);
    var s :| 0 <= s < n && xs[s].start == last.start;
    var e :| 0 <= e < n && xs[e].end == last.end;
    var e' := if xs[n].end > last.end then n else e;
    assert xs[e'].end == block.end && xs[s].start == block.start;
  }

  lemma ExtendBlock(xs: seq<Interval>, n: nat, init: seq<Interval>, last: Interval)
    requires Sorted(xs) && n < |xs| && Merged(xs, n, init + [last]) && xs[n].start <= last.end
    ensures Merged(xs, n + 1, init + [Extended(last, xs[n])])
  {
    var had, now := init + [last], init + [Extended(last, xs[n])];
    assert had[|had| - 1] == last;
    ExtendLast(xs, n, last);
    ExtendCounts(xs, n, init, last);
    forall i | 0 <= i < |init| ensures now[i] == had[i] {}
    if Proper(xs) { assert !Reversed(had[|init|]); }
  }

  // One turn of the merge loop.
  function Push(blocks: seq<Interval>, x: Interval): seq<Interval> {
    if blocks == [] || x.start > blocks[|blocks| - 1].end then blocks + [x]
    else blocks[..|blocks| - 1] + [Extended(blocks[|blocks| - 1], x)]
  }

  // The merge loop as a fold.
  function MergeTo(sorted: seq<Interval>, n: nat): seq<Interval>
    requires n <= |sorted|
  {
    if n == 0 then [] else Push(MergeTo(sorted, n - 1), sorted[n - 1])
  }

  lemma PushMerges(xs: seq<Interval>, n: nat, blocks: seq<Interval>, next: seq<Interval>)
    requires Sorted(xs) && n < |xs| && Merged(xs, n, blocks) && next == Push(blocks, xs[n])
    ensures Merged(xs, n + 1, next)
  {
    if blocks == [] || xs[n].start > blocks[|blocks| - 1].end {
      AppendBlock(xs, n, blocks);
    } else {
      var init, last := blocks[..|blocks| - 1], blocks[|blocks| - 1];
      assert blocks == init + [last];
      ExtendBlock(xs, n, init, last);
    }
  }

  lemma {:induction false} MergesTo(sorted: seq<Interval>, n: nat)
    requires Sorted(sorted) && n <= |sorted|
    ensures Merged(sorted, n, MergeTo(sorted, n))
  {
    if n > 0 {
      MergesTo(sorted, n - 1);
      PushMerges(sorted, n - 1, MergeTo(sorted, n - 1), MergeTo(sorted, n));
    }
  }

  // The merge loop over the sorted intervals.
  method Merge(sorted: seq<Interval>) returns (merged: seq<Interval>)
    ensures merged == MergeTo(sorted, |sorted|)
  {
    merged := [];
    for i := 0 to |sorted|
      invariant merged == MergeTo(sorted, i)
    {
      var x := sorted[i];
      if merged == [] || x.start > merged[|merged| - 1].end {
        merged := merged + [x];
      } else {
        var last := merged[|merged| - 1];
        merged := merged[|merged| - 1 := Interval(last.start, if x.end > last.end then x.end else last.end)];
      }
    }
  }

  // sum(end - start for start, end in merged)
  method Total(merged: seq<Interval>) returns (total: int)
    ensures total == Length(merged)
  {
    total := 0;
    for i := 0 to |merged|
      invariant total == LengthTo(merged, i)
    {
      total := total + (merged[i].end - merged[i].start);
    }
  }

  // union_seconds, with the merged list it sums up.
  method UnionSeconds(intervals: seq<Interval>) returns (total: int, merged: seq<Interval>)
    ensures total == Busy(intervals)
    ensures Separated(merged) && Cover(merged) == Cover(intervals) && total == Length(merged)
    ensures Proper(intervals) ==> Proper(merged)
  {
    var sorted := Sort(intervals);
    merged := Merge(sorted);
    MergesTo(sorted, |sorted|);
    total := Total(merged);
    Members(sorted, intervals);
    BusyPermuted(sorted, intervals);
    CoverSame(sorted, intervals);
    forall i | 0 <= i < |sorted| && Proper(intervals) ensures !Reversed(sorted[i]) { assert sorted[i] in intervals; }
  }

  // The total is the measure of the union exactly when every reversed interval is sheltered.
  lemma ExactIff(xs: seq<Interval>)
    ensures Busy(xs) == |Cover(xs)| <==> forall x | x in xs && Reversed(x) :: Sheltered(x, xs)
  {
    NoLosses(xs, |xs|, xs);
    if forall x | x in xs && Reversed(x) :: Sheltered(x, xs) {
      forall i | 0 <= i < |xs| && Reversed(xs[i]) ensures Sheltered(xs[i], xs) { assert xs[i] in xs; }
    }
  }

  lemma {:induction false} NoLosses(xs: seq<Interval>, n: nat, all: seq<Interval>)
    requires n <= |xs|
    ensures LossesTo(xs, n, all) == 0 <==> forall i :: 0 <= i < n && Reversed(xs[i]) ==> Sheltered(xs[i], all)
  {
    if n > 0 { NoLosses(xs, n - 1, all); }
  }

  lemma ProperExact(xs: seq<Interval>)
    requires Proper(xs)
    ensures Busy(xs) == |Cover(xs)|
  {
    ExactIff(xs);
  }

  lemma ReversedGoesNegative()
    ensures Busy([Interval(5, 3)]) == -2
  {
    var x := Interval(5, 3);
    ShelteredAt(x, [x], 1);
    assert !Sheltered(x, [x]);
    CoverSnoc([], x);
    LossesSnoc([], x, [x]);
    assert [] + [x] == [x] && Ticks(x) == {};
  }

  // ----- cluster and replicas -----

  // A request row's times, if recorded, and its replica.
  datatype Row = Row(times: Option<Interval>, replica: string)

  // The recorded intervals of the first n rows.
  function Intervals(rows: seq<Row>, n: nat): seq<Interval>
    requires n <= |rows|
  {
    if n == 0 then [] else Intervals(rows, n - 1) + if rows[n - 1].times.Some? then [rows[n - 1].times.value] else []
  }

  // Those of one replica.
  function Of(rows: seq<Row>, replica: string, n: nat): seq<Interval>
    requires n <= |rows|
  {
    if n == 0 then []
    else Of(rows, replica, n - 1) + if Counts(rows[n - 1], replica) then [rows[n - 1].times.value] else []
  }

  predicate Counts(row: Row, replica: string) { row.times.Some? && row.replica == replica }

  predicate Distinct(replicas: seq<string>) { forall i, j :: 0 <= i < j < |replicas| ==> replicas[i] != replicas[j] }

  // The replica has a recorded row among the first n.
  predicate Seen(rows: seq<Row>, n: nat, r: string)
    requires n <= |rows|
  {
    n > 0 && (Counts(rows[n - 1], r) || Seen(rows, n - 1, r))
  }

  // Every replica with a recorded row among the first n, once.
  ghost predicate Lists(replicas: seq<string>, rows: seq<Row>, n: nat)
    requires n <= |rows|
  {
    Distinct(replicas) && forall r :: r in replicas <==> Seen(rows, n, r)
  }

  lemma {:induction false} Unseen(rows: seq<Row>, n: nat, r: string)
    requires n <= |rows| && !Seen(rows, n, r)
    ensures Of(rows, r, n) == []
  {
    if n > 0 { Unseen(rows, n - 1, r); }
  }

  lemma {:induction false} SeenRow(rows: seq<Row>, n: nat, i: nat)
    requires i < n <= |rows| && rows[i].times.Some?
    ensures Seen(rows, n, rows[i].replica)
  {
    if i < n - 1 { SeenRow(rows, n - 1, i); }
  }

  function BusyOf(lists: seq<seq<Interval>>): seq<int> { seq(|lists|, i requires 0 <= i < |lists| => Busy(lists[i])) }

  function ListsOf(rows: seq<Row>, replicas: seq<string>): seq<seq<Interval>> {
    seq(|replicas|, i requires 0 <= i < |replicas| => Of(rows, replicas[i], |rows|))
  }

  // Each replica's busy time.
  function ReplicaBusy(rows: seq<Row>, replicas: seq<string>): seq<int> { BusyOf(ListsOf(rows, replicas)) }

  ghost predicate Grouped(groups: map<string, seq<Interval>>, rows: seq<Row>, n: nat)
    requires n <= |rows|
  {
    forall r :: if r in groups then Seen(rows, n, r) && groups[r] == Of(rows, r, n) else !Seen(rows, n, r)
  }

  // The dict update for one more row.
  function AddRow(groups: map<string, seq<Interval>>, row: Row): map<string, seq<Interval>> {
    if row.times.None? then groups
    else groups[row.replica := (if row.replica in groups then groups[row.replica] else []) + [row.times.value]]
  }

  lemma RowAdded(rows: seq<Row>, n: nat, groups: map<string, seq<Interval>>)
    requires n < |rows| && Grouped(groups, rows, n)
    ensures Grouped(AddRow(groups, rows[n]), rows, n + 1)
  {
    var row, groups' := rows[n], AddRow(groups, rows[n]);
    forall r
      ensures if r in groups' then Seen(rows, n + 1, r) && groups'[r] == Of(rows, r, n + 1) else !Seen(rows, n + 1, r)
    {
      if r !in groups { Unseen(rows, n, r); }
    }
  }

  // per_replica: the keys in the order the dict saw them, and each key's list.
  method GroupByReplica(rows: seq<Row>) returns (replicas: seq<string>, groups: map<string, seq<Interval>>)
    ensures Lists(replicas, rows, |rows|) && Grouped(groups, rows, |rows|)
  {
    replicas, groups := [], map[];
    for i := 0 to |rows|
      invariant Distinct(replicas) && forall r :: r in replicas <==> r in groups
      invariant Grouped(groups, rows, i)
    {
      var row := rows[i];
      RowAdded(rows, i, groups);
      if row.times.Some? {
        var r := row.replica;
        ghost var before := groups;
        if r !in groups { replicas, groups := replicas + [r], groups[r := []]; }
        groups := groups[r := groups[r] + [row.times.value]];
        assert groups == AddRow(before, row);
      }
    }
  }

  method Recorded(rows: seq<Row>) returns (intervals: seq<Interval>)
    ensures intervals == Intervals(rows, |rows|)
  {
    intervals := [];
    for i := 0 to |rows|
      invariant intervals == Intervals(rows, i)
    {
      if rows[i].times.Some? { intervals := intervals + [rows[i].times.value]; }
    }
  }

  // sum(union_seconds(items) for items in per_replica.values())
  method SumReplicas(lists: seq<seq<Interval>>) returns (gpu: int)
    ensures gpu == SumTo(BusyOf(lists), |lists|)
  {
    gpu := 0;
    for i := 0 to |lists|
      invariant gpu == SumTo(BusyOf(lists), i)
    {
      var busy, blocks := UnionSeconds(lists[i]);
      gpu := gpu + busy;
    }
  }

  // The busy-time part of request_summary.
  method RequestBusy(rows: seq<Row>) returns (cluster: int, gpu: int, replicas: seq<string>)
    ensures cluster == Busy(Intervals(rows, |rows|))
    ensures Lists(replicas, rows, |rows|) && gpu == SumTo(ReplicaBusy(rows, replicas), |replicas|)
  {
    var intervals := Recorded(rows);
    var groups, merged;
    replicas, groups := GroupByReplica(rows);
    cluster, merged := UnionSeconds(intervals);
    forall i | 0 <= i < |replicas| ensures replicas[i] in groups && groups[replicas[i]] == Of(rows, replicas[i], |rows|) {
      assert replicas[i] in replicas;
    }
    var lists := seq(|replicas|, i requires 0 <= i < |replicas| && replicas[i] in groups => groups[replicas[i]]);
    assert lists == ListsOf(rows, replicas);
    gpu := SumReplicas(lists);
  }

  predicate ProperRows(rows: seq<Row>) { forall i :: 0 <= i < |rows| && rows[i].times.Some? ==> !Reversed(rows[i].times.value) }

  lemma {:induction false} InIntervals(rows: seq<Row>, n: nat, x: Interval)
    requires n <= |rows|
    ensures x in Intervals(rows, n) <==> exists i :: 0 <= i < n && rows[i].times == Some(x)
  {
    if n > 0 { InIntervals(rows, n - 1, x); }
  }

  lemma {:induction false} InReplica(rows: seq<Row>, r: string, n: nat, x: Interval)
    requires n <= |rows|
    ensures x in Of(rows, r, n) <==> exists i :: 0 <= i < n && rows[i].times == Some(x) && rows[i].replica == r
  {
    if n > 0 { InReplica(rows, r, n - 1, x); }
  }

  lemma {:induction false} ProperGroups(rows: seq<Row>, r: string, n: nat)
    requires ProperRows(rows) && n <= |rows|
    ensures Proper(Intervals(rows, n)) && Proper(Of(rows, r, n))
  {
    if n > 0 { ProperGroups(rows, r, n - 1); }
  }

  // A replica's ticks are cluster ticks, and every cluster tick is some listed replica's.
  lemma ReplicaTicks(rows: seq<Row>, r: string)
    ensures Cover(Of(rows, r, |rows|)) <= Cover(Intervals(rows, |rows|))
  {
    forall t | t in Cover(Of(rows, r, |rows|)) ensures t in Cover(Intervals(rows, |rows|)) {
      InCover(Of(rows, r, |rows|), t);
      var x :| x in Of(rows, r, |rows|) && Runs(x, t);
      InReplica(rows, r, |rows|, x);
      InIntervals(rows, |rows|, x);
      InCover(Intervals(rows, |rows|), t);
    }
  }

  lemma ClusterTick(rows: seq<Row>, replicas: seq<string>, t: int) returns (i: nat)
    requires Lists(replicas, rows, |rows|) && t in Cover(Intervals(rows, |rows|))
    ensures i < |replicas| && t in Cover(Of(rows, replicas[i], |rows|))
  {
    InCover(Intervals(rows, |rows|), t);
    var x :| x in Intervals(rows, |rows|) && Runs(x, t);
    InIntervals(rows, |rows|, x);
    var j :| 0 <= j < |rows| && rows[j].times == Some(x);
    InReplica(rows, rows[j].replica, |rows|, x);
    InCover(Of(rows, rows[j].replica, |rows|), t);
    SeenRow(rows, |rows|, j);
    i :| 0 <= i < |replicas| && replicas[i] == rows[j].replica;
  }

  function Unions(sets: seq<set<int>>, m: nat): set<int>
    requires m <= |sets|
  {
    if m == 0 then {} else Unions(sets, m - 1) + sets[m - 1]
  }

  function SumTo(xs: seq<int>, m: nat): int
    requires m <= |xs|
  {
    if m == 0 then 0 else SumTo(xs, m - 1) + xs[m - 1]
  }

  lemma UnionSize(a: set<int>, b: set<int>)
    ensures |a + b| <= |a| + |b|
  {
    assert a + b == a + (b - a);
    SubsetSize(b - a, b);
  }

  // A union is no larger than the sum of its parts' bounds.
  lemma {:induction false} UnionsBound(sets: seq<set<int>>, bounds: seq<int>, m: nat)
    requires m <= |sets| == |bounds| && forall i :: 0 <= i < m ==> |sets[i]| <= bounds[i]
    ensures |Unions(sets, m)| <= SumTo(bounds, m)
  {
    if m > 0 {
      UnionsBound(sets, bounds, m - 1);
      UnionSize(Unions(sets, m - 1), sets[m - 1]);
    }
  }

  lemma {:induction false} InUnions(sets: seq<set<int>>, m: nat, i: nat, t: int)
    requires i < m <= |sets| && t in sets[i]
    ensures t in Unions(sets, m)
  {
    if i < m - 1 { InUnions(sets, m - 1, i, t); }
  }

  lemma {:induction false} SumMono(xs: seq<int>, ys: seq<int>, m: nat)
    requires m <= |xs| == |ys| && forall i :: 0 <= i < m ==> xs[i] <= ys[i]
    ensures SumTo(xs, m) <= SumTo(ys, m)
  {
    if m > 0 { SumMono(xs, ys, m - 1); }
  }

  // Each replica's summed durations over the first n rows.
  function ReplicaLengths(rows: seq<Row>, replicas: seq<string>, n: nat): seq<int>
    requires n <= |rows|
  {
    seq(|replicas|, i requires 0 <= i < |replicas| => Length(Of(rows, replicas[i], n)))
  }

  function Duration(row: Row): int { if row.times.Some? then row.times.value.end - row.times.value.start else 0 }

  // Raising the one entry with the wanted name raises the sum by as much.
  lemma {:induction false} SumRaised(xs: seq<int>, ys: seq<int>, names: seq<string>, name: string, d: int, m: nat)
    requires m <= |xs| == |ys| == |names| && Distinct(names)
    requires forall i :: 0 <= i < m ==> ys[i] == xs[i] + if names[i] == name then d else 0
    ensures SumTo(ys, m) == SumTo(xs, m) + if Listed(name, names, m) then d else 0
  {
    if m > 0 { SumRaised(xs, ys, names, name, d, m - 1); }
  }

  predicate Listed(r: string, replicas: seq<string>, m: nat)
    requires m <= |replicas|
  {
    exists i :: 0 <= i < m && replicas[i] == r
  }

  lemma GroupStep(rows: seq<Row>, r: string, n: nat)
    requires n < |rows|
    ensures Length(Of(rows, r, n + 1)) == Length(Of(rows, r, n)) + if rows[n].replica == r then Duration(rows[n]) else 0
  {
    if Counts(rows[n], r) {
      LengthSnoc(Of(rows, r, n), rows[n].times.value);
    } else {
      assert Of(rows, r, n + 1) == Of(rows, r, n);
    }
  }

  lemma {:induction false} LengthsTotal(rows: seq<Row>, replicas: seq<string>, n: nat)
    requires Distinct(replicas) && n <= |rows|
    requires forall r | Seen(rows, n, r) :: r in replicas
    ensures SumTo(ReplicaLengths(rows, replicas, n), |replicas|) == Length(Intervals(rows, n))
  {
    if n == 0 {
      NoLengths(ReplicaLengths(rows, replicas, 0), |replicas|);
    } else {
      var xs, ys, row := ReplicaLengths(rows, replicas, n - 1), ReplicaLengths(rows, replicas, n), rows[n - 1];
      LengthsTotal(rows, replicas, n - 1);
      forall i | 0 <= i < |replicas| ensures ys[i] == xs[i] + if replicas[i] == row.replica then Duration(row) else 0 {
        GroupStep(rows, replicas[i], n - 1);
      }
      SumRaised(xs, ys, replicas, row.replica, Duration(row), |replicas|);
      IntervalsStep(rows, n - 1);
      if row.times.Some? { assert Seen(rows, n, row.replica); }
    }
  }

  lemma IntervalsStep(rows: seq<Row>, n: nat)
    requires n < |rows|
    ensures Length(Intervals(rows, n + 1)) == Length(Intervals(rows, n)) + Duration(rows[n])
  {
    if rows[n].times.Some? {
      LengthSnoc(Intervals(rows, n), rows[n].times.value);
    } else {
      assert Intervals(rows, n + 1) == Intervals(rows, n);
    }
  }

  lemma {:induction false} NoLengths(xs: seq<int>, m: nat)
    requires m <= |xs| && forall i :: 0 <= i < |xs| ==> xs[i] == 0
    ensures SumTo(xs, m) == 0
  {
    if m > 0 { NoLengths(xs, m - 1); }
  }

  // The ticks of each interval, and its length.
  function TickSets(xs: seq<Interval>): seq<set<int>> { seq(|xs|, i requires 0 <= i < |xs| => Ticks(xs[i])) }

  function Spans(xs: seq<Interval>): seq<int> { seq(|xs|, i requires 0 <= i < |xs| => xs[i].end - xs[i].start) }

  lemma {:induction false} CoverIsUnion(xs: seq<Interval>, n: nat)
    requires n <= |xs|
    ensures CoverTo(xs, n) == Unions(TickSets(xs), n) && LengthTo(xs, n) == SumTo(Spans(xs), n)
  {
    if n > 0 { CoverIsUnion(xs, n - 1); }
  }

  lemma CoverAtMostLength(xs: seq<Interval>)
    requires Proper(xs)
    ensures |Cover(xs)| <= Length(xs)
  {
    CoverIsUnion(xs, |xs|);
    forall i | 0 <= i < |xs| ensures |TickSets(xs)[i]| <= Spans(xs)[i] { RangeSize(xs[i].start, xs[i].end); }
    UnionsBound(TickSets(xs), Spans(xs), |xs|);
  }

  // A proper replica's busy time is the measure of its cover, and at most its summed durations.
  lemma ReplicaExact(rows: seq<Row>, r: string)
    requires ProperRows(rows)
    ensures var own := Of(rows, r, |rows|); |Cover(own)| == Busy(own) <= Length(own)
  {
    var own := Of(rows, r, |rows|);
    ProperGroups(rows, r, |rows|);
    ProperExact(own);
    CoverAtMostLength(own);
  }

  // Cluster busy time <= summed replica busy times <= summed request durations.
  lemma BusyOrder(rows: seq<Row>, replicas: seq<string>)
    requires ProperRows(rows) && Lists(replicas, rows, |rows|)
    ensures Busy(Intervals(rows, |rows|)) <= SumTo(ReplicaBusy(rows, replicas), |replicas|) <= Length(Intervals(rows, |rows|))
  {
    ClusterAtMostReplicas(rows, replicas);
    ReplicasAtMostDurations(rows, replicas);
  }

  lemma ClusterAtMostReplicas(rows: seq<Row>, replicas: seq<string>)
    requires ProperRows(rows) && Lists(replicas, rows, |rows|)
    ensures Busy(Intervals(rows, |rows|)) <= SumTo(ReplicaBusy(rows, replicas), |replicas|)
  {
    var cluster := Intervals(rows, |rows|);
    var covers := seq(|replicas|, i requires 0 <= i < |replicas| => Cover(Of(rows, replicas[i], |rows|)));
    ProperGroups(rows, "", |rows|);
    ProperExact(cluster);
    forall i | 0 <= i < |replicas| ensures |covers[i]| <= ReplicaBusy(rows, replicas)[i] { ReplicaExact(rows, replicas[i]); }
    UnionsBound(covers, ReplicaBusy(rows, replicas), |replicas|);
    forall t | t in Cover(cluster) ensures t in Unions(covers, |replicas|) {
      var i := ClusterTick(rows, replicas, t);
      InUnions(covers, |replicas|, i, t);
    }
    SubsetSize(Cover(cluster), Unions(covers, |replicas|));
  }

  lemma ReplicasAtMostDurations(rows: seq<Row>, replicas: seq<string>)
    requires ProperRows(rows) && Lists(replicas, rows, |rows|)
    ensures SumTo(ReplicaBusy(rows, replicas), |replicas|) <= Length(Intervals(rows, |rows|))
  {
    var lengths := ReplicaLengths(rows, replicas, |rows|);
    forall i | 0 <= i < |replicas| ensures ReplicaBusy(rows, replicas)[i] <= lengths[i] { ReplicaExact(rows, replicas[i]); }
    SumMono(ReplicaBusy(rows, replicas), lengths, |replicas|);
    LengthsTotal(rows, replicas, |rows|);
  }

  // No replica is busier than the cluster.
  lemma ReplicaAtMostCluster(rows: seq<Row>, r: string)
    requires ProperRows(rows)
    ensures Busy(Of(rows, r, |rows|)) <= Busy(Intervals(rows, |rows|))
  {
    ProperGroups(rows, r, |rows|);
    ProperExact(Intervals(rows, |rows|));
    ProperExact(Of(rows, r, |rows|));
    ReplicaTicks(rows, r);
    SubsetSize(Cover(Of(rows, r, |rows|)), Cover(Intervals(rows, |rows|)));
  }
}
