/** Index arithmetic and sums shared by the two convolution layers
    (src/layers/Conv.java over `data.Tensor`, src/cnn/ConvLayer.java over Java arrays).
    Every sum reads its operands through total read functions, so that each layer can
    plug in its own representation; the layers' preconditions keep every read inside
    the arrays, where the read functions return the stored cells. */
module ConvMath {
  import JavaInt
  import Shapes
  import Activation

  /** Reads of a 3-D array: (channel, row, column) to the stored value. */
  type Field = (int, int, int) -> real

  /** Reads of the 4-D kernel array: (kernel, channel, row, column) to the stored value. */
  type Bank = (int, int, int, int) -> real

  /** Kernel extent, stride and padding of a convolution. */
  datatype Geometry = Geometry(kh: nat, kw: nat, stride: int, padding: int)

  /** The input coordinate read for output position o and kernel offset j: o·stride + j − padding. */
  function Tap(o: int, s: int, j: int, p: int): int
  {
    o * s + j - p
  }

  /** The window at output position o (kernel offsets j < k) lies inside [0, size). */
  predicate Inside(o: int, k: int, s: int, p: int, size: int)
  {
    forall j :: 0 <= j < k ==> 0 <= Tap(o, s, j, p) < size
  }

  /** Every window of an n-wide output along one axis lies inside [0, size). */
  predicate Reaches(n: int, k: int, s: int, p: int, size: int)
  {
    forall o :: 0 <= o < n ==> Inside(o, k, s, p, size)
  }

  /** Without padding, a positive stride and a kernel no larger than the input, every
      window the output-size formula admits lies inside the input. */
  lemma PaddingFreeWindowsFit(h: int, k: int, s: int)
    requires s >= 1 && 0 <= k <= h
    ensures JavaInt.OutputSize(h, k, 0, s) >= 1
    ensures Reaches(JavaInt.OutputSize(h, k, 0, s), k, s, 0, h)
  {
    var n := JavaInt.OutputSize(h, k, 0, s);
    JavaInt.LastWindowFits(h, k, s);
    forall o | 0 <= o < n
      ensures Inside(o, k, s, 0, h)
    {
      Shapes.MulMonotone(o, n - 1, s);
      Shapes.MulMonotone(0, o, s);
    }
  }

  /** With truncating division a kernel larger than the input can still yield one
      output row (H = 2, kH = 3, stride 2 gives 1), and that row's window reads past
      the input: its last row is kH − 1 >= H. */
  lemma KernelLargerThanInput(h: int, k: int, s: int)
    requires s >= 1 && 0 <= h < k && k - h < s
    ensures JavaInt.OutputSize(h, k, 0, s) == 1
    ensures !Reaches(1, k, s, 0, h)
  {
    assert Tap(0, s, k - 1, 0) == k - 1;
    assert !Inside(0, k, s, 0, h);
  }

  // ---------------------------------------------------------------- forward

  /** Kernel row ky of the window at (oy, ox), first n columns:
      Σ_{kx<n} x(c, Tap(oy, ky), Tap(ox, kx)) · K(k, c, ky, kx). */
  function RowDot(x: Field, K: Bank, k: int, c: int, oy: int, ox: int, ky: int, n: int, g: Geometry): real
    decreases n
  {
    if n <= 0 then 0.0
    else RowDot(x, K, k, c, oy, ox, ky, n - 1, g)
         + x(c, Tap(oy, g.stride, ky, g.padding), Tap(ox, g.stride, n - 1, g.padding)) * K(k, c, ky, n - 1)
  }

  /** The first m kernel rows of the window at (oy, ox) in channel c: the `sum` that
      `forward` accumulates, row by row. */
  function Window(x: Field, K: Bank, k: int, c: int, oy: int, ox: int, m: int, g: Geometry): real
    decreases m
  {
    if m <= 0 then 0.0
    else Window(x, K, k, c, oy, ox, m - 1, g) + RowDot(x, K, k, c, oy, ox, m - 1, g.kw, g)
  }

  /** What the pass over channel c writes at output cell (k, oy, ox). */
  function ChannelValue(x: Field, K: Bank, bias: real, k: int, c: int, oy: int, ox: int, g: Geometry): real
  {
    Activation.Relu(Window(x, K, k, c, oy, ox, g.kh, g) + bias)
  }

  /** The output cell once the channel loop is over: each channel pass overwrites the
      cell, so only the last channel cIn − 1 remains; with no channel it stays 0. */
  function Response(x: Field, K: Bank, bias: real, k: int, cIn: int, oy: int, ox: int, g: Geometry): real
  {
    if cIn >= 1 then ChannelValue(x, K, bias, k, cIn - 1, oy, ox, g) else 0.0
  }

  /** x1 and x2 hold the same values in channel c. */
  ghost predicate SameChannel(x1: Field, x2: Field, c: int)
  {
    forall y, z :: x1(c, y, z) == x2(c, y, z)
  }

  /** A kernel row reads nothing but channel c of the input. */
  lemma {:induction false} RowDotReadsOneChannel(x1: Field, x2: Field, K: Bank, k: int, c: int, oy: int, ox: int, ky: int, n: int, g: Geometry)
    requires SameChannel(x1, x2, c)
    ensures RowDot(x1, K, k, c, oy, ox, ky, n, g) == RowDot(x2, K, k, c, oy, ox, ky, n, g)
    decreases n
  {
    if n > 0 {
      RowDotReadsOneChannel(x1, x2, K, k, c, oy, ox, ky, n - 1, g);
    }
  }

  /** A window reads nothing but channel c of the input. */
  lemma {:induction false} WindowReadsOneChannel(x1: Field, x2: Field, K: Bank, k: int, c: int, oy: int, ox: int, m: int, g: Geometry)
    requires SameChannel(x1, x2, c)
    ensures Window(x1, K, k, c, oy, ox, m, g) == Window(x2, K, k, c, oy, ox, m, g)
    decreases m
  {
    if m > 0 {
      WindowReadsOneChannel(x1, x2, K, k, c, oy, ox, m - 1, g);
      RowDotReadsOneChannel(x1, x2, K, k, c, oy, ox, m - 1, g.kw, g);
    }
  }

  /** Because every channel pass overwrites the output, two inputs that agree on the
      last channel give the same output, whatever their other channels hold. */
  lemma LastChannelDecides(x1: Field, x2: Field, K: Bank, bias: real, k: int, cIn: int, oy: int, ox: int, g: Geometry)
    requires cIn >= 1 && SameChannel(x1, x2, cIn - 1)
    ensures Response(x1, K, bias, k, cIn, oy, ox, g) == Response(x2, K, bias, k, cIn, oy, ox, g)
  {
    WindowReadsOneChannel(x1, x2, K, k, cIn - 1, oy, ox, g.kh, g);
  }

  /** Two channels of ones under a 1×1 kernel of ones and bias 0: the output is
      relu(1) = 1, where summing over the channels would give 2. */
  lemma OverwriteExample()
    ensures var ones: Field := (c, y, z) => 1.0;
      var unit: Bank := (k, c, y, z) => 1.0;
      var g := Geometry(1, 1, 1, 0);
      Response(ones, unit, 0.0, 0, 2, 0, 0, g) == 1.0 &&
      Window(ones, unit, 0, 0, 0, 0, 1, g) + Window(ones, unit, 0, 1, 0, 0, 1, g) == 2.0
  {
    var ones: Field := (c, y, z) => 1.0;
    var unit: Bank := (k, c, y, z) => 1.0;
    var g := Geometry(1, 1, 1, 0);
    assert RowDot(ones, unit, 0, 1, 0, 0, 0, 1, g) == 1.0;
    assert RowDot(ones, unit, 0, 0, 0, 0, 0, 1, g) == 1.0;
  }

  // ---------------------------------------------------------------- backward

  /** `reluDerivative` applied to every cell: the gradient `backward` gates in place. */
  function Gate(d: Field): Field
  {
    (k, h, w) => Activation.ReluDerivative(d(k, h, w))
  }

  /** Σ_{w<n} d(k, h, w). */
  function RowTotal(d: Field, k: int, h: int, n: int): real
    decreases n
  {
    if n <= 0 then 0.0 else RowTotal(d, k, h, n - 1) + d(k, h, n - 1)
  }

  /** Σ_{h<m} Σ_{w<n} d(k, h, w): the bias gradient of kernel k. */
  function Total(d: Field, k: int, m: int, n: int): real
    decreases m
  {
    if m <= 0 then 0.0 else Total(d, k, m - 1, n) + RowTotal(d, k, m - 1, n)
  }

  /** Output row h of the kernel gradient at (k, c, y, z), first n columns:
      Σ_{w<n} x(c, Tap(h, y), Tap(w, z)) · d(k, h, w). */
  function GradientRow(x: Field, d: Field, k: int, c: int, y: int, z: int, h: int, n: int, g: Geometry): real
    decreases n
  {
    if n <= 0 then 0.0
    else GradientRow(x, d, k, c, y, z, h, n - 1, g)
         + x(c, Tap(h, g.stride, y, g.padding), Tap(n - 1, g.stride, z, g.padding)) * d(k, h, n - 1)
  }

  /** The kernel gradient delta_F[k][c][y][z] over an m × n gradient:
      Σ_{h<m} Σ_{w<n} x(c, h·s + y − p, w·s + z − p) · d(k, h, w). */
  function Gradient(x: Field, d: Field, k: int, c: int, y: int, z: int, m: int, n: int, g: Geometry): real
    decreases m
  {
    if m <= 0 then 0.0
    else Gradient(x, d, k, c, y, z, m - 1, n, g) + GradientRow(x, d, k, c, y, z, m - 1, n, g)
  }

  /** With no output columns, every bias and kernel gradient is zero, whatever the
      number of rows. */
  lemma {:induction false} NoColumnsNoGradient(x: Field, d: Field, k: int, c: int, y: int, z: int, m: int, n: int, g: Geometry)
    requires n <= 0
    ensures Total(d, k, m, n) == 0.0
    ensures Gradient(x, d, k, c, y, z, m, n, g) == 0.0
    decreases m
  {
    if m > 0 {
      NoColumnsNoGradient(x, d, k, c, y, z, m - 1, n, g);
    }
  }

  /** One gradient-descent step, w − gradient · lr (`inc(-gradient * lr)` in
      src/layers/Conv.java, `-= gradient * lr` in src/cnn/ConvLayer.java). */
  function Descended(w: real, gradient: real, lr: real): real
  {
    w + -gradient * lr
  }

  /** Sums over an output clipped to non-negative sizes are the sums over the output. */
  lemma ClippedSums(x: Field, d: Field, hOut: int, wOut: int, hRows: nat, wCols: nat, g: Geometry)
    requires hRows == (if hOut >= 1 then hOut else 0) && wCols == (if wOut >= 1 then wOut else 0)
    ensures forall k :: Total(d, k, hOut, wOut) == Total(d, k, hRows, wCols)
    ensures forall k, c, y, z :: Gradient(x, d, k, c, y, z, hOut, wOut, g) == Gradient(x, d, k, c, y, z, hRows, wCols, g)
  {
    forall k
      ensures Total(d, k, hOut, wOut) == Total(d, k, hRows, wCols)
    {
      if wOut < 1 {
        NoColumnsNoGradient(x, d, k, 0, 0, 0, hOut, wOut, g);
        NoColumnsNoGradient(x, d, k, 0, 0, 0, hRows, wCols, g);
      }
    }
    forall k, c, y, z
      ensures Gradient(x, d, k, c, y, z, hOut, wOut, g) == Gradient(x, d, k, c, y, z, hRows, wCols, g)
    {
      if wOut < 1 {
        NoColumnsNoGradient(x, d, k, c, y, z, hOut, wOut, g);
        NoColumnsNoGradient(x, d, k, c, y, z, hRows, wCols, g);
      }
    }
  }

  /** An all-ones gated gradient on a 2×2 output sums to 4, so at learning rate 0.1 a
      zero bias moves to −0.4. */
  lemma BiasStepExample()
    ensures var ones: Field := (k, h, w) => 1.0;
      Total(Gate(ones), 0, 2, 2) == 4.0 &&
      0.0 + -Total(Gate(ones), 0, 2, 2) * 0.1 == -0.4
  {
    var ones: Field := (k, h, w) => 1.0;
    var gated := Gate(ones);
    forall h, w
      ensures gated(0, h, w) == 1.0
    {
      assert ones(0, h, w) == 1.0;
    }
    assert RowTotal(gated, 0, 0, 2) == 2.0;
    assert RowTotal(gated, 0, 1, 2) == 2.0;
  }

  // Input gradient: gradient cell (k, h, w) reaches input cell (y, z) through the
  // kernel rotated by 180°, when the kernel placed at (h, w) covers (y, z).

  /** The kernel placed at output position (h, w) covers input cell (y, z). */
  predicate Covers(h: int, w: int, y: int, z: int, g: Geometry)
  {
    0 <= y - h < g.kh && 0 <= z - w < g.kw
  }

  /** d(k, h, w) · K(k, c, kH − 1 − (y − h), kW − 1 − (z − w)). */
  function Term(d: Field, K: Bank, k: int, c: int, h: int, w: int, y: int, z: int, g: Geometry): real
  {
    d(k, h, w) * K(k, c, g.kh - 1 - (y - h), g.kw - 1 - (z - w))
  }

  /** The amount gradient cell (k, h, w) adds to input cell (y, z) of channel c. */
  function Contribution(d: Field, K: Bank, k: int, c: int, h: int, w: int, y: int, z: int, g: Geometry): real
  {
    if Covers(h, w, y, z, g) then Term(d, K, k, c, h, w, y, z, g) else 0.0
  }

  /** Σ_{w<n} Contribution(k, h, w). */
  function RowSpread(d: Field, K: Bank, k: int, c: int, h: int, n: int, y: int, z: int, g: Geometry): real
    decreases n
  {
    if n <= 0 then 0.0
    else RowSpread(d, K, k, c, h, n - 1, y, z, g) + Contribution(d, K, k, c, h, n - 1, y, z, g)
  }

  /** Σ_{h<m} Σ_{w<n} Contribution(k, h, w). */
  function PlaneSpread(d: Field, K: Bank, k: int, c: int, m: int, n: int, y: int, z: int, g: Geometry): real
    decreases m
  {
    if m <= 0 then 0.0
    else PlaneSpread(d, K, k, c, m - 1, n, y, z, g) + RowSpread(d, K, k, c, m - 1, n, y, z, g)
  }

  /** The accumulated input gradient at (c, y, z) over kernels k < kn and an
      hOut × wOut gradient: Σ_k Σ_{h+kh=y, w+kw=z} d(k,h,w) · K(k, c, kH−1−kh, kW−1−kw). */
  function Backflow(d: Field, K: Bank, kn: int, c: int, hOut: int, wOut: int, y: int, z: int, g: Geometry): real
    decreases kn
  {
    if kn <= 0 then 0.0
    else Backflow(d, K, kn - 1, c, hOut, wOut, y, z, g) + PlaneSpread(d, K, kn - 1, c, hOut, wOut, y, z, g)
  }

  /** With no output columns nothing flows back to the input, whatever the number
      of rows. */
  lemma {:induction false} NoColumnsNoSpread(d: Field, K: Bank, k: int, c: int, m: int, n: int, y: int, z: int, g: Geometry)
    requires n <= 0
    ensures PlaneSpread(d, K, k, c, m, n, y, z, g) == 0.0
    decreases m
  {
    if m > 0 {
      NoColumnsNoSpread(d, K, k, c, m - 1, n, y, z, g);
    }
  }

  /** The accumulated input gradient over an output clipped to non-negative sizes is
      the one over the output. */
  lemma {:induction false} ClippedBackflow(d: Field, K: Bank, kn: int, c: int, hOut: int, wOut: int, hRows: nat, wCols: nat,
                                          y: int, z: int, g: Geometry)
    requires hRows == (if hOut >= 1 then hOut else 0) && wCols == (if wOut >= 1 then wOut else 0)
    ensures Backflow(d, K, kn, c, hOut, wOut, y, z, g) == Backflow(d, K, kn, c, hRows, wCols, y, z, g)
    decreases kn
  {
    if kn > 0 {
      ClippedBackflow(d, K, kn - 1, c, hOut, wOut, hRows, wCols, y, z, g);
      if wOut < 1 {
        NoColumnsNoSpread(d, K, kn - 1, c, hOut, wOut, y, z, g);
        NoColumnsNoSpread(d, K, kn - 1, c, hRows, wCols, y, z, g);
      }
    }
  }

  function Min(a: int, b: int): int
  {
    if a <= b then a else b
  }

  /** Some column w < n of output row h covers (y, z); the last such column is
      Min(z, n − 1). */
  predicate RowHit(h: int, n: int, y: int, z: int, g: Geometry)
  {
    n >= 1 && z >= 0 && Covers(h, Min(z, n - 1), y, z, g)
  }

  /** Some position (h, w) with h < m and w < n covers (y, z); the last such
      position in row-major order is (Min(y, m − 1), Min(z, n − 1)). */
  predicate PlaneHit(m: int, n: int, y: int, z: int, g: Geometry)
  {
    m >= 1 && y >= 0 && RowHit(Min(y, m - 1), n, y, z, g)
  }

  /** The input gradient at (c, y, z) when every product is written with `set`: the
      write that comes last in loop order (kernel, h, w, kh, kw) wins, that is the
      last kernel kn − 1 at the last covering position; cells nothing covers stay 0. */
  function LastWrite(d: Field, K: Bank, kn: int, c: int, hOut: int, wOut: int, y: int, z: int, g: Geometry): real
  {
    if kn >= 1 && PlaneHit(hOut, wOut, y, z, g)
    then Term(d, K, kn - 1, c, Min(y, hOut - 1), Min(z, wOut - 1), y, z, g)
    else 0.0
  }

  /** One kernel, a 2×2 all-ones gradient and a 2×2 all-ones kernel: the centre input
      cell (1, 1) is covered by all four positions. Accumulating gives 4; writing with
      `set` keeps only the last product, 1. */
  lemma SetKeepsLastProduct()
    ensures var ones: Field := (k, h, w) => 1.0;
      var unit: Bank := (k, c, y, z) => 1.0;
      var g := Geometry(2, 2, 1, 0);
      Backflow(ones, unit, 1, 0, 2, 2, 1, 1, g) == 4.0 &&
      LastWrite(ones, unit, 1, 0, 2, 2, 1, 1, g) == 1.0
  {
    var ones: Field := (k, h, w) => 1.0;
    var unit: Bank := (k, c, y, z) => 1.0;
    var g := Geometry(2, 2, 1, 0);
    assert Covers(0, 0, 1, 1, g) && Covers(0, 1, 1, 1, g) && Covers(1, 0, 1, 1, g) && Covers(1, 1, 1, 1, g);
    assert RowSpread(ones, unit, 0, 0, 0, 2, 1, 1, g) == 2.0;
    assert RowSpread(ones, unit, 0, 0, 1, 2, 1, 1, g) == 2.0;
    assert PlaneSpread(ones, unit, 0, 0, 2, 2, 1, 1, g) == 4.0;
    assert PlaneHit(2, 2, 1, 1, g);
  }
}
