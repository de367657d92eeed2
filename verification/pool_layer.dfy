/** Max pooling over a [C][H][W] volume (src/cnn/PoolLayer.java), as written: only
    output channel 0 is ever written, window origins step by the stride but are not
    scaled by it, and every feature map overwrites the maxima of the one before. */
module Pool {
  import opened Outcomes
  import opened Arrays
  import JavaInt
  import Shapes

  /** The running maximum, which starts at Double.NEGATIVE_INFINITY. */
  datatype Extended = NegInf | Finite(v: real)

  /** `Math.max(acc, v)` with `acc` possibly -infinity. */
  function Max(acc: Extended, v: real): (r: Extended)
    ensures r.Finite? && r.v >= v && (acc.Finite? ==> r.v >= acc.v)
    ensures r.v == v || (acc.Finite? && r.v == acc.v)
  {
    if acc.NegInf? || acc.v < v then Finite(v) else acc
  }

  /** The number a finished window stores; the forward pass never stores -infinity,
      so the 0.0 for NegInf is never observed (see PoolForward). */
  function Value(e: Extended): real
  {
    if e.Finite? then e.v else 0.0
  }

  /** featureMap[y][x], or 0.0 where the ragged Java array has no such cell. */
  function Read(m: Matrix, y: int, x: int): real
  {
    if 0 <= y < |m| && 0 <= x < |m[y]| then m[y][x] else 0.0
  }

  /** The inner window loop after n steps on row iy: the in-bounds cells
      [iy][ox .. ox+n) folded into `acc` with Math.max, left to right. */
  function RowScan(acc: Extended, m: Matrix, iy: int, ox: int, h: int, w: int, n: int): Extended
    decreases n
  {
    if n <= 0 then acc
    else
      var a := RowScan(acc, m, iy, ox, h, w, n - 1);
      if iy < h && ox + n - 1 < w then Max(a, Read(m, iy, ox + n - 1)) else a
  }

  /** The two window loops after n rows, starting from -infinity. */
  function WindowScan(m: Matrix, oy: int, ox: int, pw: int, h: int, w: int, n: int): Extended
    decreases n
  {
    if n <= 0 then NegInf
    else RowScan(WindowScan(m, oy, ox, pw, h, w, n - 1), m, oy + n - 1, ox, h, w, pw)
  }

  /** The value of `max` after the window at (oy, ox) of a ph × pw pool. */
  function WindowMax(m: Matrix, oy: int, ox: int, ph: int, pw: int, h: int, w: int): Extended
  {
    WindowScan(m, oy, ox, pw, h, w, ph)
  }

  /** Cell (iy, ix) is inside the window at (oy, ox) and passes the source's
      `inY < inputHeight && inX < inputWidth` test. */
  predicate InWindow(oy: int, ox: int, ph: int, pw: int, h: int, w: int, iy: int, ix: int)
  {
    oy <= iy < oy + ph && iy < h && ox <= ix < ox + pw && ix < w
  }

  lemma {:induction false} RowScanIsMax(acc: Extended, m: Matrix, iy: int, ox: int, h: int, w: int, n: int)
    ensures var r := RowScan(acc, m, iy, ox, h, w, n);
      && (r.NegInf? <==> acc.NegInf? && !(n >= 1 && iy < h && ox < w))
      && (acc.Finite? ==> r.Finite? && acc.v <= r.v)
      && (r.Finite? ==> forall ix :: ox <= ix < ox + n && iy < h && ix < w ==> Read(m, iy, ix) <= r.v)
      && (r.Finite? ==> r == acc || exists ix :: ox <= ix < ox + n && iy < h && ix < w && Read(m, iy, ix) == r.v)
    decreases n
  {
    if n > 0 {
      RowScanIsMax(acc, m, iy, ox, h, w, n - 1);
      var a := RowScan(acc, m, iy, ox, h, w, n - 1);
      var r := RowScan(acc, m, iy, ox, h, w, n);
      if iy < h && ox + n - 1 < w {
        assert r == Max(a, Read(m, iy, ox + n - 1));
        if r != acc && r.v != Read(m, iy, ox + n - 1) {
          assert r == a;
        }
      }
    }
  }

  /** The window maximum: -infinity exactly when the window holds no in-bounds
      cell; otherwise at least every in-bounds cell of the window and equal to one. */
  lemma {:induction false} WindowMaxIsMax(m: Matrix, oy: int, ox: int, ph: int, pw: int, h: int, w: int)
    requires 0 <= oy && 0 <= ox
    ensures var r := WindowMax(m, oy, ox, ph, pw, h, w);
      && (r.NegInf? <==> !(ph >= 1 && pw >= 1 && oy < h && ox < w))
      && (r.Finite? ==> forall iy, ix :: InWindow(oy, ox, ph, pw, h, w, iy, ix) ==> Read(m, iy, ix) <= r.v)
      && (r.Finite? ==> exists iy, ix :: InWindow(oy, ox, ph, pw, h, w, iy, ix) && Read(m, iy, ix) == r.v)
  {
    ScanIsMax(m, oy, ox, pw, h, w, ph);
  }

  lemma {:induction false} ScanIsMax(m: Matrix, oy: int, ox: int, pw: int, h: int, w: int, n: int)
    requires 0 <= oy && 0 <= ox
    ensures var r := WindowScan(m, oy, ox, pw, h, w, n);
      && (r.NegInf? <==> !(n >= 1 && pw >= 1 && oy < h && ox < w))
      && (r.Finite? ==> forall iy, ix :: InWindow(oy, ox, n, pw, h, w, iy, ix) ==> Read(m, iy, ix) <= r.v)
      && (r.Finite? ==> exists iy, ix :: InWindow(oy, ox, n, pw, h, w, iy, ix) && Read(m, iy, ix) == r.v)
    decreases n
  {
    if n > 0 {
      ScanIsMax(m, oy, ox, pw, h, w, n - 1);
      var a := WindowScan(m, oy, ox, pw, h, w, n - 1);
      var iy := oy + n - 1;
      RowScanIsMax(a, m, iy, ox, h, w, pw);
      var r := WindowScan(m, oy, ox, pw, h, w, n);
      assert r == RowScan(a, m, iy, ox, h, w, pw);
      if r.Finite? {
        forall y, x | InWindow(oy, ox, n, pw, h, w, y, x)
          ensures Read(m, y, x) <= r.v
        {
          if y < iy {
            assert InWindow(oy, ox, n - 1, pw, h, w, y, x);
          }
        }
        if r == a {
          var y, x :| InWindow(oy, ox, n - 1, pw, h, w, y, x) && Read(m, y, x) == a.v;
          assert InWindow(oy, ox, n, pw, h, w, y, x);
        } else {
          var x :| ox <= x < ox + pw && iy < h && x < w && Read(m, iy, x) == r.v;
          assert InWindow(oy, ox, n, pw, h, w, iy, x);
        }
      }
    }
  }

  /** Row iy of a window reads only cells the ragged array has (the source throws
      ArrayIndexOutOfBounds at the first it lacks). */
  predicate RowReadable(m: Matrix, iy: int, ox: int, pw: int, h: int, w: int)
  {
    pw <= 0 || ox >= w || iy >= h || (0 <= iy < |m| && 0 <= ox && Min(ox + pw, w) <= |m[iy]|)
  }

  function Min(a: int, b: int): int
  {
    if a <= b then a else b
  }

  predicate WindowReadable(m: Matrix, oy: int, ox: int, ph: int, pw: int, h: int, w: int)
  {
    forall iy :: oy <= iy < oy + ph ==> RowReadable(m, iy, ox, pw, h, w)
  }

  /** Every window the loops visit on output row oy can be read. */
  predicate RowWindowsReadable(m: Matrix, oy: int, ow: int, s: int, ph: int, pw: int, h: int, w: int)
    requires s > 0
  {
    forall x :: 0 <= x < ow && Multiple(x, s) ==> WindowReadable(m, oy, x, ph, pw, h, w)
  }

  /** Every window the loops visit on one feature map can be read. */
  predicate MapReadable(m: Matrix, oh: int, ow: int, s: int, ph: int, pw: int, h: int, w: int)
    requires s > 0
  {
    forall y :: 0 <= y < oh && Multiple(y, s) ==> RowWindowsReadable(m, y, ow, s, ph, pw, h, w)
  }

  /** The first n feature maps are MapReadable. */
  predicate MapsReadable(input: Volume, n: int, oh: int, ow: int, s: int, ph: int, pw: int, h: int, w: int)
    requires s > 0 && n <= |input|
  {
    forall z :: 0 <= z < n ==> MapReadable(input[z], oh, ow, s, ph, pw, h, w)
  }

  /** Output plane 0 after one feature map: cells whose row and column are
      multiples of the stride receive that map's window maximum, the rest keep
      what they held. */
  function Overwrite(plane: Matrix, m: Matrix, s: int, ph: int, pw: int, h: int, w: int): (r: Matrix)
    requires s > 0
    ensures |r| == |plane| && forall y :: 0 <= y < |r| ==> |r[y]| == |plane[y]|
    ensures forall y, x :: 0 <= y < |plane| && 0 <= x < |plane[y]| ==>
      r[y][x] == if Multiple(y, s) && Multiple(x, s) then Value(WindowMax(m, y, x, ph, pw, h, w)) else plane[y][x]
  {
    seq(|plane|, y requires 0 <= y < |plane| =>
      if Multiple(y, s) then OverwriteRow(plane[y], m, y, s, ph, pw, h, w) else plane[y])
  }

  /** One row of Overwrite, for a row index on the stride grid. */
  function OverwriteRow(row: seq<real>, m: Matrix, oy: int, s: int, ph: int, pw: int, h: int, w: int): (r: seq<real>)
    requires s > 0
    ensures |r| == |row|
  {
    seq(|row|, x requires 0 <= x < |row| =>
      if Multiple(x, s) then Value(WindowMax(m, oy, x, ph, pw, h, w)) else row[x])
  }

  /** `forward`, as written. The source's exceptions become errors in the order the
      source meets them: reading input[0] and input[0][0], dividing by the stride,
      allocating the output, then the loops. A negative stride throws at the second
      window of the first row (its column origin is negative). A pool side below 1
      or a zero-width first row leaves every window empty, and the source would
      store -infinity, which a real cannot hold: that case is Unsupported here. */
  function PoolForward(input: Volume, ph: int, pw: int, s: int): (r: Result<Volume>)
    ensures r == Err(DivisionByZero) <==> |input| >= 1 && |input[0]| >= 1 && s == 0
    ensures r.Ok? ==> |r.value| == |input|
    ensures r.Ok? ==> forall z, y, x :: 1 <= z < |r.value| && 0 <= y < |r.value[z]| && 0 <= x < |r.value[z][y]| ==>
      r.value[z][y][x] == 0.0
  {
    if |input| == 0 || |input[0]| == 0 then Err(IndexOutOfBounds)
    else if s == 0 then Err(DivisionByZero)
    else
      var h, w := |input[0]|, |input[0][0]|;
      var oh, ow := JavaInt.Div(h - ph, s) + 1, JavaInt.Div(w - pw, s) + 1;
      if oh < 0 || ow < 0 then Err(NegativeSize)
      else if oh == 0 || ow == 0 then Ok(Zeros3(|input|, oh, ow))
      else if s < 0 then Err(IndexOutOfBounds)
      else if ph < 1 || pw < 1 || w == 0 then Err(Unsupported)
      else if !MapsReadable(input, |input|, oh, ow, s, ph, pw, h, w) then Err(IndexOutOfBounds)
      else Ok(PoolOutput(input, oh, ow, s, ph, pw, h, w))
  }

  /** The [C][oh][ow] output after every feature map: channels other than 0 and
      cells off the stride grid hold 0, and each grid cell of channel 0 holds its
      window's maximum over the LAST feature map. */
  function PoolOutput(input: Volume, oh: nat, ow: nat, s: int, ph: int, pw: int, h: int, w: int): (r: Volume)
    requires s > 0 && |input| >= 1
    ensures IsVolume(r, |input|, oh, ow)
    ensures forall z, y, x :: 1 <= z < |input| && 0 <= y < oh && 0 <= x < ow ==> r[z][y][x] == 0.0
    ensures forall y, x :: 0 <= y < oh && 0 <= x < ow && !(Multiple(y, s) && Multiple(x, s)) ==> r[0][y][x] == 0.0
    ensures forall y, x :: 0 <= y < oh && 0 <= x < ow && Multiple(y, s) && Multiple(x, s) ==>
      r[0][y][x] == Value(WindowMax(input[|input| - 1], y, x, ph, pw, h, w))
  {
    Zeros3(|input|, oh, ow)[0 := Overwrite(Zeros2(oh, ow), input[|input| - 1], s, ph, pw, h, w)]
  }

  /** A grid cell of a successful forward pass is the maximum of its window
      (origin (y, x), not scaled by the stride): at least each in-bounds cell
      of the last feature map's window, and equal to one of them. */
  lemma PoolCellIsMax(input: Volume, oh: nat, ow: nat, s: int, ph: int, pw: int, h: int, w: int, y: int, x: int)
    requires s > 0 && |input| >= 1 && 1 <= ph && 1 <= pw && oh <= h && ow <= w
    requires 0 <= y < oh && 0 <= x < ow && Multiple(y, s) && Multiple(x, s)
    ensures var v := PoolOutput(input, oh, ow, s, ph, pw, h, w)[0][y][x];
      var last := input[|input| - 1];
      && (forall iy, ix :: InWindow(y, x, ph, pw, h, w, iy, ix) ==> Read(last, iy, ix) <= v)
      && (exists iy, ix :: InWindow(y, x, ph, pw, h, w, iy, ix) && Read(last, iy, ix) == v)
  {
    WindowMaxIsMax(input[|input| - 1], y, x, ph, pw, h, w);
  }

  /** Processing a second map after a first leaves only the second's maxima. */
  lemma LastMapWins(plane: Matrix, m1: Matrix, m2: Matrix, s: int, ph: int, pw: int, h: int, w: int)
    requires s > 0
    ensures Overwrite(Overwrite(plane, m1, s, ph, pw, h, w), m2, s, ph, pw, h, w)
         == Overwrite(plane, m2, s, ph, pw, h, w)
  {
    var a := Overwrite(Overwrite(plane, m1, s, ph, pw, h, w), m2, s, ph, pw, h, w);
    var b := Overwrite(plane, m2, s, ph, pw, h, w);
    forall y | 0 <= y < |plane|
      ensures a[y] == b[y]
    {
      assert a[y] == b[y] by {
        assert forall x :: 0 <= x < |plane[y]| ==> a[y][x] == b[y][x];
      }
    }
  }

  /** With the default stride 2 and H = W = 4, a 2 × 2 pool gives a 2 × 2 output
      of which only cell (0, 0) is a maximum: (1, 1) is not a multiple of the
      stride and stays 0. */
  lemma DefaultStrideWritesOneCell(input: Volume)
    requires IsVolume(input, 1, 4, 4)
    ensures var r := PoolForward(input, 2, 2, 2);
      && r.Ok? && IsVolume(r.value, 1, 2, 2)
      && r.value[0][1][1] == 0.0 && r.value[0][0][1] == 0.0 && r.value[0][1][0] == 0.0
  {
    assert JavaInt.Div(2, 2) == 1;
    assert !exists z :: 0 <= z < 1 && !MapReadable(input[z], 2, 2, 2, 2, 2, 4, 4) by {
      forall y, x | 0 <= y < 2 && 0 <= x < 2 && y % 2 == 0 && x % 2 == 0
        ensures WindowReadable(input[0], y, x, 2, 2, 4, 4)
      {
        assert y == 0 && x == 0;
      }
    }
  }

  /** A successful forward pass with a non-empty output had a positive stride,
      pool sides of at least 1 and an output no larger than the input, so
      PoolCellIsMax applies to every grid cell. */
  lemma PoolForwardOk(input: Volume, ph: int, pw: int, s: int)
    requires PoolForward(input, ph, pw, s).Ok?
    ensures |input| >= 1 && |input[0]| >= 1 && s != 0
    ensures var h, w := |input[0]|, |input[0][0]|;
      var oh, ow := JavaInt.Div(h - ph, s) + 1, JavaInt.Div(w - pw, s) + 1;
      oh >= 0 && ow >= 0 &&
      (oh == 0 || ow == 0 || (s >= 1 && 1 <= ph && 1 <= pw && oh <= h && ow <= w &&
        PoolForward(input, ph, pw, s).value == PoolOutput(input, oh, ow, s, ph, pw, h, w)))
  {
    var h, w := |input[0]|, |input[0][0]|;
    var oh, ow := JavaInt.Div(h - ph, s) + 1, JavaInt.Div(w - pw, s) + 1;
    if oh > 0 && ow > 0 {
      OutputWithin(h, ph, s);
      OutputWithin(w, pw, s);
    }
  }

  /** With a positive stride and a pool side of at least 1, the output is no larger
      than the input, so every visited window origin lies inside it. */
  lemma OutputWithin(h: int, p: int, s: int)
    requires s >= 1 && p >= 1 && h >= 1
    ensures JavaInt.Div(h - p, s) + 1 <= h
  {
    if h - p >= 0 {
      var q := (h - p) / s;
      assert JavaInt.Div(h - p, s) == q;
      JavaInt.EuclidNonNegative(h - p, s);
      Shapes.MulMonotone(1, s, q);
    } else {
      assert JavaInt.Div(h - p, s) == -((p - h) / s);
    }
  }

  /** The window loop over row iy, folding into `acc`. */
  method ScanRow(m: Matrix, iy: int, ox: int, pw: int, h: int, w: int, acc: Extended)
    returns (r: Result<Extended>)
    requires 0 <= ox
    ensures r == if RowReadable(m, iy, ox, pw, h, w) then Ok(RowScan(acc, m, iy, ox, h, w, pw))
                 else Err(IndexOutOfBounds)
  {
    var best := acc;
    var wx := 0;
    while wx < pw
      invariant 0 <= wx <= pw || (pw < 0 && wx == 0)
      invariant best == RowScan(acc, m, iy, ox, h, w, wx)
      invariant iy < h && ox < w && wx > 0 ==> 0 <= iy < |m| && Min(ox + wx, w) <= |m[iy]|
    {
      var inX := ox + wx;
      if iy < h && inX < w {
        if !(0 <= iy < |m| && inX < |m[iy]|) {
          return Err(IndexOutOfBounds);
        }
        best := Max(best, m[iy][inX]);
      }
      wx := wx + 1;
    }
    return Ok(best);
  }

  /** The two window loops for the window at (oy, ox). */
  method ScanWindow(m: Matrix, oy: int, ox: int, ph: int, pw: int, h: int, w: int)
    returns (r: Result<Extended>)
    requires 0 <= ox
    ensures r == if WindowReadable(m, oy, ox, ph, pw, h, w) then Ok(WindowMax(m, oy, ox, ph, pw, h, w))
                 else Err(IndexOutOfBounds)
  {
    var best := NegInf;
    var wy := 0;
    while wy < ph
      invariant 0 <= wy <= ph || (ph < 0 && wy == 0)
      invariant best == WindowScan(m, oy, ox, pw, h, w, wy)
      invariant forall iy :: oy <= iy < oy + wy ==> RowReadable(m, iy, ox, pw, h, w)
    {
      var row := ScanRow(m, oy + wy, ox, pw, h, w, best);
      if row.Err? {
        return Err(IndexOutOfBounds);
      }
      best := row.value;
      wy := wy + 1;
    }
    return Ok(best);
  }

  /** One output row part-way through the outX loop: grid columns below outX hold
      their window's maximum, the others keep what they held. */
  function PartlyPooled(row: seq<real>, m: Matrix, oy: int, outX: int, s: int, ph: int, pw: int, h: int, w: int)
    : (r: seq<real>)
    requires s > 0
    ensures |r| == |row|
  {
    seq(|row|, x requires 0 <= x < |row| =>
      if x < outX && Multiple(x, s) then Value(WindowMax(m, oy, x, ph, pw, h, w)) else row[x])
  }

  /** Writing grid column outX moves PartlyPooled on to the next grid column. */
  lemma PartlyPooledStep(row: seq<real>, m: Matrix, oy: int, outX: int, s: int, ph: int, pw: int, h: int, w: int)
    requires s > 0 && 0 <= outX < |row| && Multiple(outX, s)
    ensures PartlyPooled(row, m, oy, outX, s, ph, pw, h, w)[outX := Value(WindowMax(m, oy, outX, ph, pw, h, w))]
         == PartlyPooled(row, m, oy, outX + s, s, ph, pw, h, w)
  {
    SkipOffGrid(outX, s);
    var a := PartlyPooled(row, m, oy, outX, s, ph, pw, h, w)[outX := Value(WindowMax(m, oy, outX, ph, pw, h, w))];
    var b := PartlyPooled(row, m, oy, outX + s, s, ph, pw, h, w);
    assert forall x :: 0 <= x < |row| ==> a[x] == b[x];
  }

  /** Past the last column, PartlyPooled is OverwriteRow. */
  lemma PartlyPooledDone(row: seq<real>, m: Matrix, oy: int, outX: int, s: int, ph: int, pw: int, h: int, w: int)
    requires s > 0 && outX >= |row|
    ensures PartlyPooled(row, m, oy, outX, s, ph, pw, h, w) == OverwriteRow(row, m, oy, s, ph, pw, h, w)
  {
    var a := PartlyPooled(row, m, oy, outX, s, ph, pw, h, w);
    var b := OverwriteRow(row, m, oy, s, ph, pw, h, w);
    assert forall x :: 0 <= x < |row| ==> a[x] == b[x];
  }

  /** The outX loop for output row oy, writing into `row`. */
  method PoolRow(m: Matrix, row: seq<real>, oy: int, s: int, ph: int, pw: int, h: nat, w: nat)
    returns (r: Result<seq<real>>)
    requires s > 0 && 0 <= oy && (ph >= 1 ==> oy < h) && |row| >= 1
    requires pw >= 1 && w >= 1 ==> |row| <= w
    ensures r == if ph < 1 || pw < 1 || w == 0 then Err(Unsupported)
                 else if RowWindowsReadable(m, oy, |row|, s, ph, pw, h, w) then Ok(OverwriteRow(row, m, oy, s, ph, pw, h, w))
                 else Err(IndexOutOfBounds)
  {
    var cells := row;
    var outX := 0;
    assert cells == PartlyPooled(row, m, oy, 0, s, ph, pw, h, w);
    while outX < |row|
      invariant 0 <= outX && Multiple(outX, s)
      invariant outX > 0 ==> !(ph < 1 || pw < 1 || w == 0)
      invariant cells == PartlyPooled(row, m, oy, outX, s, ph, pw, h, w)
      invariant forall x :: 0 <= x < outX && Multiple(x, s) ==> WindowReadable(m, oy, x, ph, pw, h, w)
      decreases |row| - outX
    {
      var e := ScanWindow(m, oy, outX, ph, pw, h, w);
      WindowMaxIsMax(m, oy, outX, ph, pw, h, w);
      if e.Err? {
        return Err(IndexOutOfBounds);
      }
      if e.value.NegInf? {
        assert outX < w || w == 0 || pw < 1;
        return Err(Unsupported);
      }
      PartlyPooledStep(row, m, oy, outX, s, ph, pw, h, w);
      cells := cells[outX := e.value.v];
      SkipOffGrid(outX, s);
      outX := outX + s;
    }
    PartlyPooledDone(row, m, oy, outX, s, ph, pw, h, w);
    return Ok(cells);
  }

  /** x is one of 0, s, 2s, ...: the values the source's `+= stride` loops visit. */
  predicate Multiple(x: int, s: int)
    requires s > 0
    decreases x
  {
    x == 0 || (x >= s && Multiple(x - s, s))
  }

  /** Multiple agrees with Java's and Dafny's `x % s == 0` on non-negative x. */
  lemma {:induction false} MultipleIsRemainderZero(x: int, s: int)
    requires s > 0 && x >= 0
    ensures Multiple(x, s) <==> x % s == 0
    decreases x
  {
    if x >= s {
      MultipleIsRemainderZero(x - s, s);
      var q, r := (x - s) / s, (x - s) % s;
      assert x == (q + 1) * s + r;
      Shapes.DivModUnique(q + 1, r, x / s, x % s, s);
    } else {
      assert x % s == x;
    }
  }

  /** Between two consecutive multiples of s there is none. */
  lemma {:induction false} SkipOffGrid(a: int, s: int)
    requires s > 0 && Multiple(a, s)
    ensures forall x :: a < x < a + s ==> !Multiple(x, s)
    ensures Multiple(a + s, s)
    decreases a
  {
    if a > 0 {
      SkipOffGrid(a - s, s);
      forall x | a < x < a + s
        ensures !Multiple(x, s)
      {
        assert !Multiple(x - s, s);
      }
    }
  }

  /** Output plane 0 part-way through one feature map: grid rows below outY are
      overwritten, the others keep what they held. */
  function PartlyOverwritten(plane: Matrix, m: Matrix, outY: int, s: int, ph: int, pw: int, h: int, w: int): (r: Matrix)
    requires s > 0
    ensures |r| == |plane|
  {
    seq(|plane|, y requires 0 <= y < |plane| =>
      if y < outY && Multiple(y, s) then OverwriteRow(plane[y], m, y, s, ph, pw, h, w) else plane[y])
  }

  /** Overwriting grid row outY moves PartlyOverwritten on to the next grid row. */
  lemma PartlyOverwrittenStep(plane: Matrix, m: Matrix, outY: int, s: int, ph: int, pw: int, h: int, w: int)
    requires s > 0 && 0 <= outY < |plane| && Multiple(outY, s)
    ensures PartlyOverwritten(plane, m, outY, s, ph, pw, h, w)[outY := OverwriteRow(plane[outY], m, outY, s, ph, pw, h, w)]
         == PartlyOverwritten(plane, m, outY + s, s, ph, pw, h, w)
  {
    SkipOffGrid(outY, s);
    var a := PartlyOverwritten(plane, m, outY, s, ph, pw, h, w)[outY := OverwriteRow(plane[outY], m, outY, s, ph, pw, h, w)];
    var b := PartlyOverwritten(plane, m, outY + s, s, ph, pw, h, w);
    assert forall y :: 0 <= y < |plane| ==> a[y] == b[y];
  }

  /** Past the last row, PartlyOverwritten is Overwrite. */
  lemma PartlyOverwrittenDone(plane: Matrix, m: Matrix, outY: int, s: int, ph: int, pw: int, h: int, w: int)
    requires s > 0 && outY >= |plane|
    ensures PartlyOverwritten(plane, m, outY, s, ph, pw, h, w) == Overwrite(plane, m, s, ph, pw, h, w)
  {
    var a := PartlyOverwritten(plane, m, outY, s, ph, pw, h, w);
    var b := Overwrite(plane, m, s, ph, pw, h, w);
    assert forall y :: 0 <= y < |plane| ==> a[y] == b[y];
  }

  /** Before the first row, PartlyOverwritten is the plane itself. */
  lemma PartlyOverwrittenStart(plane: Matrix, m: Matrix, s: int, ph: int, pw: int, h: int, w: int)
    requires s > 0
    ensures PartlyOverwritten(plane, m, 0, s, ph, pw, h, w) == plane
  {
  }

  /** The outY loop over one feature map, writing into output plane 0. */
  method PoolMap(m: Matrix, plane: Matrix, s: int, ph: int, pw: int, h: nat, w: nat)
    returns (r: Result<Matrix>)
    requires s > 0 && |plane| >= 1 && IsMatrix(plane, |plane|, |plane[0]|) && |plane[0]| >= 1
    requires ph >= 1 ==> |plane| <= h
    requires pw >= 1 && w >= 1 ==> |plane[0]| <= w
    ensures r == if ph < 1 || pw < 1 || w == 0 then Err(Unsupported)
                 else if MapReadable(m, |plane|, |plane[0]|, s, ph, pw, h, w)
                 then Ok(Overwrite(plane, m, s, ph, pw, h, w))
                 else Err(IndexOutOfBounds)
  {
    var oh, ow := |plane|, |plane[0]|;
    var out := plane;
    var outY := 0;
    PartlyOverwrittenStart(plane, m, s, ph, pw, h, w);
    while outY < oh
      invariant 0 <= outY && Multiple(outY, s)
      invariant outY > 0 ==> !(ph < 1 || pw < 1 || w == 0)
      invariant out == PartlyOverwritten(plane, m, outY, s, ph, pw, h, w)
      invariant forall y :: 0 <= y < outY && Multiple(y, s) ==> RowWindowsReadable(m, y, ow, s, ph, pw, h, w)
      decreases oh - outY
    {
      var row := PoolRow(m, plane[outY], outY, s, ph, pw, h, w);
      if row.Err? {
        return Err(row.error);
      }
      PartlyOverwrittenStep(plane, m, outY, s, ph, pw, h, w);
      out := out[outY := row.value];
      SkipOffGrid(outY, s);
      outY := outY + s;
    }
    PartlyOverwrittenDone(plane, m, outY, s, ph, pw, h, w);
    return Ok(out);
  }

  lemma MapsReadableStep(input: Volume, n: int, oh: int, ow: int, s: int, ph: int, pw: int, h: int, w: int)
    requires s > 0 && 0 <= n < |input|
    requires MapsReadable(input, n, oh, ow, s, ph, pw, h, w) && MapReadable(input[n], oh, ow, s, ph, pw, h, w)
    ensures MapsReadable(input, n + 1, oh, ow, s, ph, pw, h, w)
  {
  }

  /** Output plane 0 after the first z feature maps: zeros, overwritten by map z - 1. */
  function PlaneAfter(input: Volume, z: int, oh: nat, ow: nat, s: int, ph: int, pw: int, h: int, w: int): (r: Matrix)
    requires s > 0 && 0 <= z <= |input|
    ensures IsMatrix(r, oh, ow)
  {
    if z == 0 then Zeros2(oh, ow) else Overwrite(Zeros2(oh, ow), input[z - 1], s, ph, pw, h, w)
  }

  /** Overwriting PlaneAfter z with map z gives PlaneAfter z + 1: only the last map counts. */
  lemma PlaneAfterStep(input: Volume, z: int, oh: nat, ow: nat, s: int, ph: int, pw: int, h: int, w: int)
    requires s > 0 && 0 <= z < |input|
    ensures Overwrite(PlaneAfter(input, z, oh, ow, s, ph, pw, h, w), input[z], s, ph, pw, h, w)
         == PlaneAfter(input, z + 1, oh, ow, s, ph, pw, h, w)
  {
    if z > 0 {
      LastMapWins(Zeros2(oh, ow), input[z - 1], input[z], s, ph, pw, h, w);
    }
  }

  /** The loop over the feature maps, each overwriting output plane 0. */
  method PoolMaps(input: Volume, oh: nat, ow: nat, s: int, ph: int, pw: int, h: nat, w: nat)
    returns (r: Result<Volume>)
    requires s > 0 && |input| >= 1 && oh >= 1 && ow >= 1
    requires ph >= 1 ==> oh <= h
    requires pw >= 1 && w >= 1 ==> ow <= w
    ensures r == if ph < 1 || pw < 1 || w == 0 then Err(Unsupported)
                 else if !MapsReadable(input, |input|, oh, ow, s, ph, pw, h, w) then Err(IndexOutOfBounds)
                 else Ok(PoolOutput(input, oh, ow, s, ph, pw, h, w))
  {
    var output := Zeros3(|input|, oh, ow);
    var plane := output[0];
    for z := 0 to |input|
      invariant plane == PlaneAfter(input, z, oh, ow, s, ph, pw, h, w)
      invariant z > 0 ==> !(ph < 1 || pw < 1 || w == 0)
      invariant MapsReadable(input, z, oh, ow, s, ph, pw, h, w)
    {
      var next := PoolNext(input, z, plane, oh, ow, s, ph, pw, h, w);
      if next.Err? {
        return Err(next.error);
      }
      plane := next.value;
    }
    return Ok(output[0 := plane]);
  }

  /** One pass of the loop over the feature maps: map z overwrites output plane 0,
      or the error it raises ends the pass. */
  method PoolNext(input: Volume, z: nat, plane: Matrix, oh: nat, ow: nat, s: int, ph: int, pw: int, h: nat, w: nat)
    returns (r: Result<Matrix>)
    requires s > 0 && z < |input| && oh >= 1 && ow >= 1
    requires ph >= 1 ==> oh <= h
    requires pw >= 1 && w >= 1 ==> ow <= w
    requires plane == PlaneAfter(input, z, oh, ow, s, ph, pw, h, w)
    requires MapsReadable(input, z, oh, ow, s, ph, pw, h, w)
    ensures r.Ok? ==>
      !(ph < 1 || pw < 1 || w == 0) &&
      r.value == PlaneAfter(input, z + 1, oh, ow, s, ph, pw, h, w) &&
      MapsReadable(input, z + 1, oh, ow, s, ph, pw, h, w)
    ensures r.Err? ==>
      r.error == (if ph < 1 || pw < 1 || w == 0 then Unsupported else IndexOutOfBounds) &&
      (!(ph < 1 || pw < 1 || w == 0) ==> !MapsReadable(input, |input|, oh, ow, s, ph, pw, h, w))
  {
    r := PoolMap(input[z], plane, s, ph, pw, h, w);
    if r.Err? {
      if !(ph < 1 || pw < 1 || w == 0) {
        assert !MapReadable(input[z], oh, ow, s, ph, pw, h, w);
      }
      return;
    }
    MapsReadableStep(input, z, oh, ow, s, ph, pw, h, w);
    PlaneAfterStep(input, z, oh, ow, s, ph, pw, h, w);
  }

  class PoolLayer {
    var poolHeight: int
    var poolWidth: int
    var stride: int

    /** The stride defaults to 2. */
    constructor (poolHeight: int, poolWidth: int)
      ensures this.poolHeight == poolHeight && this.poolWidth == poolWidth && stride == 2
    {
      this.poolHeight := poolHeight;
      this.poolWidth := poolWidth;
      stride := 2;
    }

    /** `forward`: the layer's fields are read, not changed. */
    method Forward(input: Volume) returns (r: Result<Volume>)
      ensures r == PoolForward(input, poolHeight, poolWidth, stride)
    {
      if |input| == 0 || |input[0]| == 0 {
        return Err(IndexOutOfBounds);
      }
      var h, w := |input[0]|, |input[0][0]|;
      if stride == 0 {
        return Err(DivisionByZero);
      }
      var oh := JavaInt.Div(h - poolHeight, stride) + 1;
      var ow := JavaInt.Div(w - poolWidth, stride) + 1;
      if oh < 0 || ow < 0 {
        return Err(NegativeSize);
      }
      if oh == 0 || ow == 0 {
        return Ok(Zeros3(|input|, oh, ow));
      }
      if poolHeight >= 1 && stride >= 1 {
        OutputWithin(h, poolHeight, stride);
      }
      if poolWidth >= 1 && w >= 1 && stride >= 1 {
        OutputWithin(w, poolWidth, stride);
      }
      if stride < 0 {
        // outX steps to the negative stride after the first window, where the
        // source's read of featureMap[inY][inX] or write of output[0][outY][outX] throws
        return Err(IndexOutOfBounds);
      }
      r := PoolMaps(input, oh, ow, stride, poolHeight, poolWidth, h, w);
    }

    /** `backward` is not overridden: the base class's throws. */
    method Backward(gradient: Volume, learningRate: real) returns (r: Result<Volume>)
      ensures r == Err(Unsupported)
    {
      return Err(Unsupported);
    }

    method SetStride(stride: int)
      modifies this
      ensures this.stride == stride && poolHeight == old(poolHeight) && poolWidth == old(poolWidth)
    {
      this.stride := stride;
    }

    method SetPoolHeight(poolHeight: int)
      modifies this
      ensures this.poolHeight == poolHeight && stride == old(stride) && poolWidth == old(poolWidth)
    {
      this.poolHeight := poolHeight;
    }

    method SetPoolWidth(poolWidth: int)
      modifies this
      ensures this.poolWidth == poolWidth && stride == old(stride) && poolHeight == old(poolHeight)
    {
      this.poolWidth := poolWidth;
    }

    function GetStride(): int
      reads this
    {
      stride
    }

    function GetPoolHeight(): int
      reads this
    {
      poolHeight
    }

    function GetPoolWidth(): int
      reads this
    {
      poolWidth
    }
  }

  /** The setters and getters round-trip, in any order of setting. */
  method SetThenGet(layer: PoolLayer, s: int, ph: int, pw: int)
    returns (gotStride: int, gotHeight: int, gotWidth: int)
    modifies layer
    ensures gotStride == s && gotHeight == ph && gotWidth == pw
  {
    layer.SetPoolWidth(pw);
    layer.SetStride(s);
    layer.SetPoolHeight(ph);
    gotStride, gotHeight, gotWidth := layer.GetStride(), layer.GetPoolHeight(), layer.GetPoolWidth();
  }
}
