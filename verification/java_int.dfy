/** Java's `int` division, which truncates toward zero (Dafny's `/` floors). */
module JavaInt {

  function Abs(x: int): (r: nat)
    ensures r == x || r == -x
  {
    if x < 0 then -x else x
  }

  /** `a / b` as the JVM computes it for `int` operands (overflow aside): the
      quotient of the magnitudes, negated when the signs differ. That is division
      truncating toward zero: the remainder `a - q*b` is smaller than the divisor in
      size and is zero or has the sign of `a`. */
  function Div(a: int, b: int): (q: int)
    requires b != 0
    ensures Abs(a - q * b) < Abs(b)
    ensures a - q * b == 0 || ((a - q * b > 0) == (a > 0))
  {
    EuclidNonNegative(Abs(a), Abs(b));
    var q :=
      if a >= 0 && b > 0 then a / b
      else if a < 0 && b > 0 then -((-a) / b)
      else if a >= 0 then -(a / (-b))
      else (-a) / (-b);
    assert q == if (a < 0) == (b < 0) then Abs(a) / Abs(b) else -(Abs(a) / Abs(b));
    if a == 0 then q
    else
      RemainderOfMagnitudes(a, b, Abs(a) / Abs(b), q);
      q
  }

  lemma EuclidNonNegative(x: int, y: int)
    requires x >= 0 && y > 0
    ensures 0 <= x - (x / y) * y < y
  {
  }

  lemma RemainderOfMagnitudes(a: int, b: int, m: int, q: int)
    requires a != 0 && b != 0
    requires 0 <= Abs(a) - m * Abs(b) < Abs(b)
    requires q == if (a < 0) == (b < 0) then m else -m
    ensures Abs(a - q * b) < Abs(b)
    ensures a - q * b == 0 || ((a - q * b > 0) == (a > 0))
  {
    var t := m * Abs(b);
    var r := a - q * b;
    if b > 0 {
      assert Abs(b) == b;
      if a >= 0 {
        assert q == m && r == Abs(a) - t;
      } else {
        assert q == -m;
        assert q * b == -t;
        assert r == -(Abs(a) - t);
      }
    } else {
      assert Abs(b) == -b;
      if a > 0 {
        assert q == -m;
        assert q * b == t;
        assert r == Abs(a) - t;
      } else {
        assert q == m;
        assert q * b == -t;
        assert r == -(Abs(a) - t);
      }
    }
  }

  /** For a non-negative numerator and a positive divisor the two divisions agree. */
  lemma DivNonNegative(a: int, b: int)
    requires a >= 0 && b > 0
    ensures Div(a, b) == a / b
  {
  }

  /** A negative numerator smaller in size than the divisor truncates to 0, where
      floor division would give -1. */
  lemma DivSmallNegative(a: int, b: int)
    requires b > 0 && -b < a < 0
    ensures Div(a, b) == 0
  {
    assert 0 < -a < b;
    assert (-a) / b == 0;
  }

  /** `(H - k + 2*padding) / stride + 1`: the output-size formula shared by the
      convolution and pooling layers, with Java's truncating division. */
  function OutputSize(h: int, k: int, padding: int, stride: int): (r: int)
    requires stride != 0
    ensures stride > 0 && h - k + 2 * padding >= 0 ==>
              r == (h - k + 2 * padding) / stride + 1 && r >= 1
    ensures stride > 0 && -stride < h - k + 2 * padding < 0 ==> r == 1
    ensures stride > 0 && h - k + 2 * padding <= -stride ==> r <= 0
  {
    Div(h - k + 2 * padding, stride) + 1
  }

  /** The case that floor division would get wrong: H=2, kH=3, stride=2 gives 1. */
  lemma OutputSizeTruncates()
    ensures OutputSize(2, 3, 0, 2) == 1
  {
  }

  /** With stride >= 1 and a kernel that fits, every window starts inside the input:
      the last window origin (size-1)*stride plus the kernel extent stays within h. */
  lemma {:induction false} LastWindowFits(h: int, k: int, stride: int)
    requires stride >= 1 && 0 <= k <= h
    ensures OutputSize(h, k, 0, stride) >= 1
    ensures (OutputSize(h, k, 0, stride) - 1) * stride + k <= h
  {
    var q := (h - k) / stride;
    assert Div(h - k, stride) == q;
    assert q * stride <= h - k;
  }
}
