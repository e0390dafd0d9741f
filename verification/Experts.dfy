// Experts cut over expert-parallel ranks, and the converter's element count.
module Experts {
  import opened Common

  predicate Owns(experts: nat, ep: nat, rank: nat, e: nat)
    requires ep > 0
  {
    rank * (experts / ep) <= e < (rank + 1) * (experts / ep)
  }

  // No expert has two owners.
  lemma OwnerUnique(experts: nat, ep: nat, r1: nat, r2: nat, e: nat)
    requires ep > 0 && Owns(experts, ep, r1, e) && Owns(experts, ep, r2, e)
    ensures r1 == r2
  {
    var local := experts / ep;
    if r1 < r2 { MulMono(r1 + 1, r2, local); }
    if r2 < r1 { MulMono(r2 + 1, r1, local); }
  }

  ghost predicate Owned(experts: nat, ep: nat, e: nat)
    requires ep > 0
  {
    exists r: nat :: r < ep && Owns(experts, ep, r, e)
  }

  // Every expert has an owner exactly when the ranks divide the experts.
  lemma EveryExpertOwnedIff(experts: nat, ep: nat)
    requires ep > 0
    ensures (forall e: nat | e < experts :: Owned(experts, ep, e)) <==> experts % ep == 0
  {
    if experts % ep == 0 {
      forall e: nat | e < experts ensures Owned(experts, ep, e) { OwnerOf(experts, ep, e); }
    } else {
      if Owned(experts, ep, experts - 1) {
        var r: nat :| r < ep && Owns(experts, ep, r, experts - 1);
        LocalRange(experts, ep, r);
        LocalTotal(experts, ep);
      }
    }
  }

  lemma LocalTotal(experts: nat, ep: nat)
    requires ep > 0
    ensures experts == ep * (experts / ep) + experts % ep
  {}

  lemma LocalRange(experts: nat, ep: nat, rank: nat)
    requires rank < ep
    ensures (rank + 1) * (experts / ep) == rank * (experts / ep) + experts / ep <= ep * (experts / ep)
  {
    MulMono(rank + 1, ep, experts / ep);
  }

  lemma OwnerOf(experts: nat, ep: nat, e: nat)
    requires ep > 0 && experts % ep == 0 && e < experts
    ensures Owned(experts, ep, e)
  {
    var local := experts / ep;
    LocalTotal(experts, ep);
    var r := e / local;
    assert e == r * local + e % local;
    MulStep(r + 1, local);
    if r >= ep { MulMono(ep, r, local); }
    assert Owns(experts, ep, r, e);
  }

  // The expert loop on one rank: the experts copied into local slots 0, 1, ..., and the copied
  // elements when a down projection has w2 elements (gate and up together have twice as many).
  method CopyExperts(experts: nat, ep: nat, rank: nat, w2: nat) returns (slots: seq<nat>, numel: nat)
    requires rank < ep
    ensures |slots| == experts / ep && forall s | 0 <= s < |slots| :: slots[s] == rank * (experts / ep) + s
    ensures numel == |slots| * (3 * w2)
    ensures forall e: nat | e < experts :: e in slots <==> Owns(experts, ep, rank, e)
  {
    var local := experts / ep;
    var start, end := rank * local, (rank + 1) * local;
    LocalRange(experts, ep, rank);
    LocalTotal(experts, ep);
    slots, numel := [], 0;
    var idx := 0;
    while idx < experts
      invariant 0 <= idx <= experts
      invariant |slots| == if idx < start then 0 else if idx < end then idx - start else local
      invariant forall s | 0 <= s < |slots| :: slots[s] == start + s
      invariant numel == |slots| * (3 * w2)
    {
      if !(idx < start || idx >= end) {
        var localIdx := idx - start;
        assert localIdx == |slots|;
        MulStep(|slots| + 1, 3 * w2);
        slots := slots + [idx];
        numel := numel + 2 * w2;
        numel := numel + w2;
      }
      idx := idx + 1;
    }
    forall e: nat | e < experts && start <= e < end ensures e in slots {
      assert slots[e - start] == e;
    }
  }

  datatype LayerError = NoLocalExpert | NumelMismatch

  function HfExpertNumel(experts: nat, w2: nat): nat { experts * (3 * w2) }

  // What the check subtracts for the experts of the other ranks.
  function OtherRanksNumel(experts: nat, ep: nat, w2: nat): int
    requires ep > 0
  {
    w2 * 3 * experts / ep * (ep - 1)
  }

  // The element check after converting one routed layer whose other parameters have `base`
  // elements: NoLocalExpert is the unbound numel_w2 of a rank without experts.
  method CheckLayerNumel(base: nat, experts: nat, ep: nat, rank: nat, w2: nat) returns (r: Result<nat, LayerError>)
    requires rank < ep
    ensures experts < ep ==> r == Err(NoLocalExpert)
    ensures experts >= ep && experts % ep != 0 && w2 > 0 ==> r == Err(NumelMismatch)
    ensures experts >= ep && (experts % ep == 0 || w2 == 0) ==> r == Ok(base + HfExpertNumel(experts / ep, w2))
  {
    var slots, copied := CopyExperts(experts, ep, rank, w2);
    LocalTotal(experts, ep);
    if experts / ep > 0 { MulMono(1, experts / ep, ep); }
    if slots == [] { return Err(NoLocalExpert); }
    var numel := base + copied;
    var expected := base + HfExpertNumel(experts, w2) - OtherRanksNumel(experts, ep, w2);
    NumelAgreesIff(experts, ep, w2);
    r := if numel == expected then Ok(numel) else Err(NumelMismatch);
  }

  // The floored correction is right exactly when the ranks divide the experts, or experts have no elements.
  lemma NumelAgreesIff(experts: nat, ep: nat, w2: nat)
    requires ep > 0
    ensures HfExpertNumel(experts / ep, w2) == HfExpertNumel(experts, w2) - OtherRanksNumel(experts, ep, w2)
            <==> experts % ep == 0 || w2 == 0
  {
    var w, s := 3 * w2, experts % ep;
    Reorder(experts, w2);
    ScaledDivision(experts, ep, w);
    var q, rem := s * w / ep, s * w % ep;
    Correction(experts * w, ep, experts / ep * w + q, rem);
    // So the two sides differ by q + rem, which vanishes only together with s * w.
    ZeroDivision(s * w, ep);
    if s > 0 && w > 0 { MulMono(1, s, w); }
  }

  lemma ZeroDivision(x: nat, n: nat)
    requires n > 0
    ensures x / n + x % n == 0 <==> x == 0
  {
    LocalTotal(x, n);
  }

  lemma ScaledDivision(x: nat, n: nat, w: nat)
    requires n > 0
    ensures x * w == (x / n * w + x % n * w / n) * n + x % n * w % n
    ensures x * w / n == x / n * w + x % n * w / n
  {
    var e, s := x / n, x % n;
    var q, rem := s * w / n, s * w % n;
    assert x * w == (e * w + q) * n + rem by {
      LocalTotal(x, n);
      SplitProduct(n, e, s, w);
      LocalTotal(s * w, n);
      MulComm(n, q);
      Distribute(e * w, q, n);
    }
    DivUnique(x * w, n, e * w + q, rem);
  }

  lemma Reorder(experts: nat, w2: nat)
    ensures w2 * 3 * experts == experts * (3 * w2)
  {}

  lemma Correction(x: nat, ep: nat, q: nat, rem: nat)
    requires ep > 0 && x == q * ep + rem
    ensures x - q * (ep - 1) == q + rem
  {}

  lemma SplitProduct(ep: nat, e: nat, s: nat, w: nat)
    ensures (ep * e + s) * w == (e * w) * ep + s * w
  {
    Distribute(ep * e, s, w);
    MulComm(ep, e);
    MulAssoc(e, ep, w);
    MulComm(ep, w);
    MulAssoc(e, w, ep);
  }
}
