/** Row-major coordinates of contiguous tensors of any rank: the arithmetic behind
    `view`, `permute` and `data_ptr() + stride * index`. */
module TensorIndex {

  /** Number of elements of a tensor with this shape (`numel`). */
  function Size(shape: seq<nat>): nat {
    if shape == [] then 1 else shape[0] * Size(shape[1..])
  }

  ghost predicate InShape(idx: seq<nat>, shape: seq<nat>) {
    |idx| == |shape| && forall i :: 0 <= i < |idx| ==> idx[i] < shape[i]
  }

  /** Flat offset of a coordinate in a contiguous tensor. */
  function Ravel(idx: seq<nat>, shape: seq<nat>): nat
    requires |idx| == |shape|
  {
    if shape == [] then 0 else idx[0] * Size(shape[1..]) + Ravel(idx[1..], shape[1..])
  }

  lemma MulMonotone(a: nat, b: nat, n: nat)
    requires a <= b
    ensures a * n <= b * n
  {
    assert b * n == a * n + (b - a) * n;
  }

  lemma DivMod(hi: nat, lo: nat, n: nat)
    requires lo < n
    ensures (hi * n + lo) / n == hi && (hi * n + lo) % n == lo
  {
    var x := hi * n + lo;
    var q := x / n;
    assert q * n <= x < q * n + n;
    if q < hi {
      MulMonotone(q + 1, hi, n);
    } else if q > hi {
      MulMonotone(hi + 1, q, n);
    }
  }

  lemma DivBound(i: nat, m: nat, n: nat)
    requires i < m * n
    ensures n > 0 && i / n < m && i % n < n && i == i / n * n + i % n
  {
    if i / n >= m {
      MulMonotone(m, i / n, n);
    }
  }

  lemma SameDivMod(i: nat, j: nat, n: nat)
    requires n > 0 && i / n == j / n && i % n == j % n
    ensures i == j
  {
    assert i == i / n * n + i % n && j == j / n * n + j % n;
  }

  /** Two different multiples of n are at least n apart. */
  lemma MultiplesApart(a: nat, b: nat, n: nat)
    requires n > 0 && a % n == 0 && b % n == 0 && a < b
    ensures a + n <= b
  {
    assert a == a / n * n && b == b / n * n;
    if a / n >= b / n {
      MulMonotone(b / n, a / n, n);
    } else {
      MulMonotone(a / n + 1, b / n, n);
    }
  }

  lemma PairBound(hi: nat, lo: nat, m: nat, n: nat)
    requires hi < m && lo < n
    ensures hi * n + lo < m * n
  {
    MulMonotone(hi + 1, m, n);
    assert (hi + 1) * n == hi * n + n;
  }

  function SplitOffset(i: nat, m: nat, stride: nat): (r: (nat, nat))
    requires i < m * stride
    ensures r.0 < m && r.1 < stride
  {
    DivBound(i, m, stride);
    (i / stride, i % stride)
  }

  /** Coordinate of a flat offset: the inverse of `Ravel`. */
  function Unravel(i: nat, shape: seq<nat>): (idx: seq<nat>)
    requires i < Size(shape)
    ensures InShape(idx, shape)
  {
    if shape == [] then [] else
      var (first, rest) := SplitOffset(i, shape[0], Size(shape[1..]));
      [first] + Unravel(rest, shape[1..])
  }

  lemma {:induction false} RavelInBounds(idx: seq<nat>, shape: seq<nat>)
    requires InShape(idx, shape)
    ensures Ravel(idx, shape) < Size(shape)
  {
    if shape == [] {
    } else {
      RavelInBounds(idx[1..], shape[1..]);
      PairBound(idx[0], Ravel(idx[1..], shape[1..]), shape[0], Size(shape[1..]));
    }
  }

  lemma {:induction false} UnravelOfRavel(idx: seq<nat>, shape: seq<nat>)
    requires InShape(idx, shape)
    ensures Ravel(idx, shape) < Size(shape)
    ensures Unravel(Ravel(idx, shape), shape) == idx
  {
    RavelInBounds(idx, shape);
    if shape == [] {
    } else {
      RavelInBounds(idx[1..], shape[1..]);
      UnravelOfRavel(idx[1..], shape[1..]);
      DivMod(idx[0], Ravel(idx[1..], shape[1..]), Size(shape[1..]));
    }
  }

  lemma {:induction false} RavelOfUnravel(i: nat, shape: seq<nat>)
    requires i < Size(shape)
    ensures Ravel(Unravel(i, shape), shape) == i
  {
    if shape == [] {
    } else {
      var stride := Size(shape[1..]);
      DivBound(i, shape[0], stride);
      RavelOfUnravel(i % stride, shape[1..]);
      var idx := Unravel(i, shape);
      assert idx[0] == i / stride && idx[1..] == Unravel(i % stride, shape[1..]);
    }
  }

  lemma SizeSplit(p: seq<nat>, m: nat, n: nat, q: seq<nat>)
    ensures Size(p + [m, n] + q) == Size(p + [m * n] + q)
  {
    if p == [] {
      assert [m, n] + q == [m] + ([n] + q) && ([n] + q)[1..] == q && ([m] + ([n] + q))[1..] == [n] + q;
      assert Size([n] + q) == n * Size(q);
      assert [] + [m, n] + q == [m] + ([n] + q);
      assert [] + [m * n] + q == [m * n] + q && ([m * n] + q)[1..] == q;
      assert m * (n * Size(q)) == m * n * Size(q);
    } else {
      assert (p + [m, n] + q)[1..] == p[1..] + [m, n] + q;
      assert (p + [m * n] + q)[1..] == p[1..] + [m * n] + q;
      SizeSplit(p[1..], m, n, q);
    }
  }

  /** `view` of a contiguous tensor that splits one axis of extent m * n into (m, n)
      keeps every flat offset. */
  lemma {:induction false} ViewSplitsAxis(
    p: seq<nat>, i: nat, j: nat, q: seq<nat>, ps: seq<nat>, m: nat, n: nat, qs: seq<nat>)
    requires |p| == |ps| && |q| == |qs|
    ensures Ravel(p + [i, j] + q, ps + [m, n] + qs) == Ravel(p + [i * n + j] + q, ps + [m * n] + qs)
  {
    var wide, narrow := p + [i, j] + q, p + [i * n + j] + q;
    var wideShape, narrowShape := ps + [m, n] + qs, ps + [m * n] + qs;
    if p == [] {
      assert wide[1..] == [j] + q && wideShape[1..] == [n] + qs;
      assert ([j] + q)[1..] == q && ([n] + qs)[1..] == qs;
      assert narrow[1..] == q && narrowShape[1..] == qs;
      assert Size([n] + qs) == n * Size(qs);
      assert i * (n * Size(qs)) + j * Size(qs) == (i * n + j) * Size(qs);
    } else {
      assert wide[1..] == p[1..] + [i, j] + q && narrow[1..] == p[1..] + [i * n + j] + q;
      assert wideShape[1..] == ps[1..] + [m, n] + qs && narrowShape[1..] == ps[1..] + [m * n] + qs;
      ViewSplitsAxis(p[1..], i, j, q, ps[1..], m, n, qs);
      SizeSplit(ps[1..], m, n, qs);
    }
  }
}
