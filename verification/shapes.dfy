/** Shape arithmetic: element counts and the flat offsets of multi-indices. */
module Shapes {

  /** Number of elements of a shape: the product of its dimensions (1 for rank 0). */
  function Product(shape: seq<int>): int
  {
    if shape == [] then 1 else shape[0] * Product(shape[1..])
  }

  /** Every component of `index` lies in `[0, shape[d])`, and the ranks agree. */
  predicate InRange(shape: seq<int>, index: seq<int>)
  {
    |index| == |shape| && forall d :: 0 <= d < |shape| ==> 0 <= index[d] < shape[d]
  }

  /** Row-major flat offset: sum of index[d] times the product of the later dimensions. */
  function Offset(shape: seq<int>, index: seq<int>): int
    requires |index| == |shape|
  {
    if shape == [] then 0 else index[0] * Product(shape[1..]) + Offset(shape[1..], index[1..])
  }

  /** The older offset: sum of index[d] * shape[d] over the first n dimensions. */
  function WeightedSum(shape: seq<int>, index: seq<int>, n: nat): int
    requires n <= |shape| && n <= |index|
  {
    if n == 0 then 0 else WeightedSum(shape, index, n - 1) + index[n - 1] * shape[n - 1]
  }

  lemma ProductNonNegative(shape: seq<int>)
    requires forall d :: 0 <= d < |shape| ==> shape[d] >= 0
    ensures Product(shape) >= 0
  {
  }

  /** Multiplying out one more dimension on the right. */
  lemma {:induction false} ProductSnoc(shape: seq<int>, n: int)
    ensures Product(shape + [n]) == Product(shape) * n
  {
    if shape != [] {
      assert (shape + [n])[1..] == shape[1..] + [n];
      ProductSnoc(shape[1..], n);
    }
  }

  lemma MulMonotone(a: int, b: int, p: int)
    requires a <= b && p >= 0
    ensures a * p <= b * p
  {
  }

  /** Dividing a*p + r by p, for 0 <= r < p, gives back a and r. */
  lemma DivModOf(a: int, r: int, p: int)
    requires 0 <= r < p
    ensures (a * p + r) / p == a && (a * p + r) % p == r
  {
    var n := a * p + r;
    DivModUnique(n / p, n % p, a, r, p);
  }

  /** Quotient and remainder are unique: a*p + r == b*p + q with r, q in [0, p). */
  lemma DivModUnique(a: int, r: int, b: int, q: int, p: int)
    requires 0 <= r < p && 0 <= q < p
    requires a * p + r == b * p + q
    ensures a == b && r == q
  {
    if a < b {
      MulMonotone(a + 1, b, p);
      assert false;
    } else if b < a {
      MulMonotone(b + 1, a, p);
      assert false;
    }
  }

  /** An in-range index has an offset inside the buffer of product(shape) cells. */
  lemma {:induction false} OffsetBounds(shape: seq<int>, index: seq<int>)
    requires InRange(shape, index)
    ensures 0 <= Offset(shape, index) < Product(shape)
  {
    if shape != [] {
      assert InRange(shape[1..], index[1..]);
      OffsetBounds(shape[1..], index[1..]);
      var p := Product(shape[1..]);
      assert index[0] * p >= 0;
      MulMonotone(index[0] + 1, shape[0], p);
    }
  }

  /** Distinct in-range indices have distinct row-major offsets. */
  lemma {:induction false} OffsetInjective(shape: seq<int>, i: seq<int>, j: seq<int>)
    requires InRange(shape, i) && InRange(shape, j)
    requires Offset(shape, i) == Offset(shape, j)
    ensures i == j
  {
    if shape != [] {
      assert InRange(shape[1..], i[1..]) && InRange(shape[1..], j[1..]);
      OffsetBounds(shape[1..], i[1..]);
      OffsetBounds(shape[1..], j[1..]);
      DivModUnique(i[0], Offset(shape[1..], i[1..]), j[0], Offset(shape[1..], j[1..]),
                   Product(shape[1..]));
      OffsetInjective(shape[1..], i[1..], j[1..]);
      assert i == [i[0]] + i[1..] && j == [j[0]] + j[1..];
    }
  }

  /** The offset of index[d..] in shape[d..] extended by one dimension on the left:
      this is the step the Java stride loop takes when it moves from d to d-1. */
  lemma OffsetStep(shape: seq<int>, index: seq<int>, d: int, e: int)
    requires 0 < d <= e <= |shape| && e <= |index|
    ensures Offset(shape[d - 1..e], index[d - 1..e])
         == index[d - 1] * Product(shape[d..e]) + Offset(shape[d..e], index[d..e])
  {
    assert shape[d - 1..e][1..] == shape[d..e];
    assert index[d - 1..e][1..] == index[d..e];
  }

  lemma Offset1(n: int, a: int)
    ensures Offset([n], [a]) == a
  {
    assert [n][1..] == [];
  }

  lemma Offset2(m: int, n: int, a: int, b: int)
    ensures Offset([m, n], [a, b]) == a * n + b
  {
    assert [m, n][1..] == [n] && [a, b][1..] == [b];
    Offset1(n, b);
  }

  lemma Offset3(k: int, m: int, n: int, a: int, b: int, c: int)
    ensures Offset([k, m, n], [a, b, c]) == a * (m * n) + b * n + c
  {
    assert [k, m, n][1..] == [m, n] && [a, b, c][1..] == [b, c];
    Offset2(m, n, b, c);
  }

  lemma Product1(n: int)
    ensures Product([n]) == n
  {
    assert [n][1..] == [];
  }

  lemma Product2(m: int, n: int)
    ensures Product([m, n]) == m * n
  {
    assert [m, n][1..] == [n];
    Product1(n);
  }

  lemma Product3(k: int, m: int, n: int)
    ensures Product([k, m, n]) == k * (m * n)
  {
    assert [k, m, n][1..] == [m, n];
    assert [m, n][1..] == [n];
    assert [n][1..] == [];
    assert Product([n]) == n;
    assert Product([m, n]) == m * n;
  }
}
