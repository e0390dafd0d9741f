// Small vocabulary shared by the other modules.
module Common {

  datatype Option<+T> = None | Some(value: T)

  datatype Result<+T, +E> = Ok(value: T) | Err(error: E)

  // Concatenation of a list of lists: torch.cat / np.concatenate along the first dimension.
  function Cat<T>(parts: seq<seq<T>>): seq<T> {
    if parts == [] then [] else parts[0] + Cat(parts[1..])
  }

  lemma CatAppend<T>(xs: seq<seq<T>>, ys: seq<seq<T>>)
    ensures Cat(xs + ys) == Cat(xs) + Cat(ys)
  {
    if xs == [] {
      assert xs + ys == ys;
    } else {
      assert (xs + ys)[1..] == xs[1..] + ys;
      CatAppend(xs[1..], ys);
    }
  }

  lemma CatSnoc<T>(xs: seq<seq<T>>, y: seq<T>)
    ensures Cat(xs + [y]) == Cat(xs) + y
  {
    CatAppend(xs, [y]);
    assert Cat([y]) == y + Cat([]);
  }

  function Sum(xs: seq<int>): int {
    if xs == [] then 0 else xs[0] + Sum(xs[1..])
  }

  lemma SumAppend(xs: seq<int>, ys: seq<int>)
    ensures Sum(xs + ys) == Sum(xs) + Sum(ys)
  {
    if xs == [] {
      assert xs + ys == ys;
    } else {
      assert (xs + ys)[1..] == xs[1..] + ys;
      SumAppend(xs[1..], ys);
    }
  }

  lemma SumSnoc(xs: seq<int>, y: int)
    ensures Sum(xs + [y]) == Sum(xs) + y
  {
    SumAppend(xs, [y]);
  }

  lemma PrefixStep<T>(xs: seq<T>, i: nat)
    requires i < |xs|
    ensures xs[..i + 1] == xs[..i] + [xs[i]]
  {}

  lemma SubsetSize<T>(a: set<T>, b: set<T>)
    requires a <= b
    ensures |a| <= |b|
  {
    assert b == a + (b - a);
  }

  // Products of a nonnegative factor keep the order of the other factor.
  lemma MulMono(a: nat, b: nat, c: nat)
    requires a <= b
    ensures a * c <= b * c && c * a <= c * b
  {}

  lemma DivExact(q: int, n: int)
    requires n > 0
    ensures (q * n) / n == q && (q * n) % n == 0
  {
    DivUnique(q * n, n, q, 0);
  }

  // Quotient and remainder are unique.
  lemma DivUnique(x: int, n: int, q: int, r: int)
    requires n > 0 && 0 <= r < n && x == q * n + r
    ensures x / n == q && x % n == r
  {
    var q', r' := x / n, x % n;
    assert x == q' * n + r';
    assert (q - q') * n == r' - r;
    if q > q' {
      MulMono(1, q - q', n);
    } else if q < q' {
      MulMono(1, q' - q, n);
    }
  }

  lemma MulStep(n: nat, size: nat)
    requires n > 0
    ensures n * size == size + (n - 1) * size
  {}

  lemma Distribute(a: int, b: int, c: int)
    ensures (a + b) * c == a * c + b * c
  {}

  lemma MulZero(a: int)
    ensures 0 * a == 0
  {}

  lemma DivSplit(x: nat, n: nat)
    requires n > 0
    ensures x == n * (x / n) + x % n && 0 <= x % n < n
  {}

  lemma MulComm(a: int, b: int)
    ensures a * b == b * a
  {}

  lemma MulAssoc(a: int, b: int, c: int)
    ensures (a * b) * c == a * (b * c)
  {}

  // The quotient of an exact division, as a product.
  lemma Exact(x: nat, n: nat)
    requires n > 0 && x % n == 0
    ensures x == (x / n) * n && x == n * (x / n)
  {}
}
