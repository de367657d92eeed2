/** `cnn.Utils`: the two-dimensional array helpers. None of them changes its
    arguments, so each is specified by a pure function and implemented by the
    loops of the source. */
module CnnUtils {
  import opened Outcomes
  import opened Arrays
  import Activation

  /** Σ_{w < n} A[h][w]·B[h][w]; a row against itself gives a sum of squares. */
  function RowProduct(a: Matrix, b: Matrix, h: int, n: nat): (r: real)
    requires 0 <= h < |a| && n <= |a[h]| && (n == 0 || (h < |b| && n <= |b[h]|))
    ensures a == b ==> r >= 0.0
  {
    if n == 0 then 0.0
    else
      Activation.Square(a[h][n - 1], a[h][n - 1] * a[h][n - 1]);
      RowProduct(a, b, h, n - 1) + a[h][n - 1] * b[h][n - 1]
  }

  /** Σ_{h < rows} Σ_{w < cols} A[h][w]·B[h][w]; a matrix against itself gives the
      sum of the squares of its cells, which is never negative. */
  function Frobenius(a: Matrix, b: Matrix, rows: nat, cols: nat): (r: real)
    requires CoversMatrix(a, rows, cols) && CoversMatrix(b, rows, cols)
    ensures a == b ==> r >= 0.0
  {
    if rows == 0 || cols == 0 then 0.0
    else Frobenius(a, b, rows - 1, cols) + RowProduct(a, b, rows - 1, cols)
  }

  /** What `matrixElementProduct` returns: the sum over the rows of A and the columns
      of A[0]; reading A[0] of an empty A, or a cell missing from a shorter row of A
      or of B, throws. */
  function ElementProduct(a: Matrix, b: Matrix): (r: Result<real>)
    ensures r.Ok? <==> |a| > 0 && CoversMatrix(a, |a|, |a[0]|) && CoversMatrix(b, |a|, |a[0]|)
    ensures r.Err? ==> r.error == IndexOutOfBounds
  {
    if |a| == 0 then Err(IndexOutOfBounds)
    else if CoversMatrix(a, |a|, |a[0]|) && CoversMatrix(b, |a|, |a[0]|)
    then Ok(Frobenius(a, b, |a|, |a[0]|))
    else Err(IndexOutOfBounds)
  }

  /** The element product is symmetric in its two matrices. */
  lemma {:induction false} FrobeniusSymmetric(a: Matrix, b: Matrix, rows: nat, cols: nat)
    requires CoversMatrix(a, rows, cols) && CoversMatrix(b, rows, cols)
    ensures Frobenius(a, b, rows, cols) == Frobenius(b, a, rows, cols)
  {
    if rows > 0 && cols > 0 {
      FrobeniusSymmetric(a, b, rows - 1, cols);
      RowProductSymmetric(a, b, rows - 1, cols);
    }
  }

  lemma {:induction false} RowProductSymmetric(a: Matrix, b: Matrix, h: int, n: nat)
    requires 0 <= h < |a| && h < |b| && n <= |a[h]| && n <= |b[h]|
    ensures RowProduct(a, b, h, n) == RowProduct(b, a, h, n)
  {
    if n > 0 {
      RowProductSymmetric(a, b, h, n - 1);
    }
  }

  /** Against a zero matrix the element product is 0. */
  lemma {:induction false} FrobeniusZero(a: Matrix, rows: nat, cols: nat)
    requires CoversMatrix(a, rows, cols)
    ensures Frobenius(a, Zeros2(rows, cols), rows, cols) == 0.0
  {
    if rows > 0 && cols > 0 {
      FrobeniusZero(a, rows - 1, cols);
      RowProductZero(a, Zeros2(rows, cols), rows - 1, cols);
      assert Frobenius(a, Zeros2(rows, cols), rows - 1, cols)
          == Frobenius(a, Zeros2(rows - 1, cols), rows - 1, cols) by {
        FrobeniusPrefix(a, Zeros2(rows, cols), Zeros2(rows - 1, cols), rows - 1, cols);
      }
    }
  }

  lemma {:induction false} RowProductZero(a: Matrix, z: Matrix, h: int, n: nat)
    requires 0 <= h < |a| && h < |z| && n <= |a[h]| && n <= |z[h]|
    requires forall j :: 0 <= j < n ==> z[h][j] == 0.0
    ensures RowProduct(a, z, h, n) == 0.0
  {
    if n > 0 {
      RowProductZero(a, z, h, n - 1);
    }
  }

  /** The sum only reads the first `rows` rows of B. */
  lemma {:induction false} FrobeniusPrefix(a: Matrix, b: Matrix, c: Matrix, rows: nat, cols: nat)
    requires CoversMatrix(a, rows, cols) && CoversMatrix(b, rows, cols) && CoversMatrix(c, rows, cols)
    requires forall i, j :: 0 <= i < rows && 0 <= j < cols ==> b[i][j] == c[i][j]
    ensures Frobenius(a, b, rows, cols) == Frobenius(a, c, rows, cols)
  {
    if rows > 0 && cols > 0 {
      FrobeniusPrefix(a, b, c, rows - 1, cols);
      RowProductAgree(a, b, c, rows - 1, cols);
    }
  }

  lemma {:induction false} RowProductAgree(a: Matrix, b: Matrix, c: Matrix, h: int, n: nat)
    requires 0 <= h < |a| && h < |b| && h < |c| && n <= |a[h]| && n <= |b[h]| && n <= |c[h]|
    requires forall j :: 0 <= j < n ==> b[h][j] == c[h][j]
    ensures RowProduct(a, b, h, n) == RowProduct(a, c, h, n)
  {
    if n > 0 {
      RowProductAgree(a, b, c, h, n - 1);
    }
  }

  /** `matrixElementProduct`: the running-sum loops. */
  method MatrixElementProduct(a: Matrix, b: Matrix) returns (r: Result<real>)
    ensures r == ElementProduct(a, b)
  {
    if |a| == 0 {
      return Err(IndexOutOfBounds);
    }
    var rows := |a|;
    var cols := |a[0]|;
    var sum := 0.0;
    for h := 0 to rows
      invariant CoversMatrix(a, h, cols) && CoversMatrix(b, h, cols)
      invariant sum == Frobenius(a, b, h, cols)
    {
      if cols > 0 && (cols > |a[h]| || h >= |b| || cols > |b[h]|) {
        return Err(IndexOutOfBounds);
      }
      var rowSum := 0.0;
      for w := 0 to cols
        invariant rowSum == RowProduct(a, b, h, w)
      {
        rowSum := rowSum + a[h][w] * b[h][w];
      }
      sum := sum + rowSum;
    }
    return Ok(sum);
  }

  /** `zeroMatrix`: allocates `rows × cols` and writes 0 into every cell; a negative
      dimension makes the allocation throw. */
  method ZeroMatrix(rows: int, cols: int) returns (r: Result<Matrix>)
    ensures r.Err? <==> rows < 0 || cols < 0
    ensures r.Err? ==> r.error == NegativeSize
    ensures r.Ok? ==> IsMatrix(r.value, rows, cols)
    ensures r.Ok? ==> forall i, j :: 0 <= i < rows && 0 <= j < cols ==> r.value[i][j] == 0.0
  {
    if rows < 0 || cols < 0 {
      return Err(NegativeSize);
    }
    var m := Zeros2(rows, cols);
    for i := 0 to rows
      invariant IsMatrix(m, rows, cols)
      invariant forall a, b :: 0 <= a < rows && 0 <= b < cols ==> m[a][b] == 0.0
    {
      for j := 0 to cols
        invariant IsMatrix(m, rows, cols)
        invariant forall a, b :: 0 <= a < rows && 0 <= b < cols ==> m[a][b] == 0.0
      {
        m := Put2(m, i, j, 0.0);
      }
    }
    return Ok(m);
  }

  /** The window `getSubMatrix` copies: shape[0] × shape[1] cells from offset
      (padding[0], padding[1]), except that column 0 is never copied and keeps the
      allocation's 0. */
  function Window(m: Matrix, rows: nat, cols: nat, top: nat, left: nat): (r: Matrix)
    requires top + rows <= |m| && (cols > 1 ==> CoversMatrix(m[top..], rows, left + cols))
    ensures IsMatrix(r, rows, cols)
    ensures forall h, w :: 0 <= h < rows && 0 <= w < cols ==>
      r[h][w] == if w == 0 then 0.0 else m[h + top][w + left]
  {
    seq(rows, h requires 0 <= h < rows =>
      seq(cols, w requires 0 <= w < cols =>
        if w == 0 then 0.0 else m[top..][h][w + left]))
  }

  /** What `getSubMatrix` returns or throws, in the order of its checks. */
  function SubMatrix(m: Matrix, shape: seq<int>, padding: seq<int>): (r: Result<Matrix>)
    ensures |shape| != 2 || |padding| != 2 ==> r == Err(InvalidShape)
    ensures r.Ok? ==> |shape| == 2 && shape[0] >= 0 && shape[1] >= 0 && IsMatrix(r.value, shape[0], shape[1])
    ensures r.Ok? ==> forall h :: 0 <= h < |r.value| && |r.value[h]| > 0 ==> r.value[h][0] == 0.0
    ensures r.Ok? ==> |padding| == 2 && forall h, w :: 0 <= h < |r.value| && 1 <= w < |r.value[h]| ==>
      0 <= h + padding[0] < |m| && 0 <= w + padding[1] < |m[h + padding[0]]| &&
      r.value[h][w] == m[h + padding[0]][w + padding[1]]
  {
    if |shape| != 2 || |padding| != 2 then Err(InvalidShape)
    else if padding[0] < 0 || padding[1] < 0 || padding[0] + shape[0] > |m| then Err(InvalidShape)
    else if |m| == 0 then Err(IndexOutOfBounds)
    else if padding[1] + shape[1] > |m[0]| then Err(InvalidShape)
    else if shape[0] < 0 || shape[1] < 0 then Err(NegativeSize)
    else if shape[1] > 1 && !CoversMatrix(m[padding[0]..], shape[0], padding[1] + shape[1])
    then Err(IndexOutOfBounds)
    else Ok(Window(m, shape[0], shape[1], padding[0], padding[1]))
  }

  /** `getSubMatrix`: the argument checks, then the copy loops starting at column 1. */
  method GetSubMatrix(m: Matrix, shape: seq<int>, padding: seq<int>) returns (r: Result<Matrix>)
    ensures r == SubMatrix(m, shape, padding)
  {
    if |shape| != 2 || |padding| != 2 {
      return Err(InvalidShape);
    }
    if padding[0] < 0 || padding[1] < 0 || padding[0] + shape[0] > |m| {
      return Err(InvalidShape);
    }
    if |m| == 0 {
      return Err(IndexOutOfBounds);
    }
    if padding[1] + shape[1] > |m[0]| {
      return Err(InvalidShape);
    }
    if shape[0] < 0 || shape[1] < 0 {
      return Err(NegativeSize);
    }
    var rows, cols, top, left := shape[0], shape[1], padding[0], padding[1];
    var sub := Zeros2(rows, cols);
    for h := 0 to rows
      invariant IsMatrix(sub, rows, cols)
      invariant cols > 1 ==> CoversMatrix(m[top..], h, left + cols)
      invariant forall a, b :: 0 <= a < rows && 0 <= b < cols ==>
        sub[a][b] == if a < h && b > 0 then m[a + top][b + left] else 0.0
    {
      if cols > 1 && left + cols > |m[h + top]| {
        assert !CoversMatrix(m[top..], rows, left + cols) by {
          assert m[top..][h] == m[h + top];
        }
        return Err(IndexOutOfBounds);
      }
      var w := 1;
      while w < cols
        invariant 1 <= w && (cols > 0 ==> w <= cols)
        invariant IsMatrix(sub, rows, cols)
        invariant forall a, b :: 0 <= a < rows && 0 <= b < cols ==>
          sub[a][b] == if (a < h && b > 0) || (a == h && 0 < b < w) then m[a + top][b + left] else 0.0
      {
        sub := Put2(sub, h, w, m[h + top][w + left]);
        w := w + 1;
      }
    }
    var window := Window(m, rows, cols, top, left);
    forall h | 0 <= h < rows
      ensures sub[h] == window[h]
    {
      assert forall w :: 0 <= w < cols ==> sub[h][w] == window[h][w];
    }
    assert sub == window;
    return Ok(sub);
  }
}
