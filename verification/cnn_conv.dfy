/** The convolution layer of the array-based network (src/cnn/ConvLayer.java): kernels,
    inputs, outputs and gradients are Java arrays, held here as nested sequences. As in
    src/layers/Conv.java the field kernelChannels is never assigned and stays 0; the
    contracts below hold for any value of it. */
module CnnConv {
  import opened Outcomes
  import opened Arrays
  import opened ConvMath
  import JavaInt
  import Activation
  import CnnUtils

  /** The reads of a `double[][][]` as a field. */
  function Cells(v: Volume): Field
  {
    (c, y, x) => Read3(v, c, y, x)
  }

  /** The reads of a `double[][][][]` kernel array as a bank. */
  function Weights(b: seq<Volume>): Bank
  {
    (k, c, y, x) => Read4(b, k, c, y, x)
  }

  /** `new double[kn][depth][kh][kw]`: kn kernels of depth × kh × kw cells. */
  predicate IsBank(b: seq<Volume>, kn: int, depth: int, kh: int, kw: int)
  {
    |b| == kn && forall k :: 0 <= k < |b| ==> IsVolume(b[k], depth, kh, kw)
  }

  /** The channel count of a kernel array: that of its first kernel. */
  function Depth(b: seq<Volume>): nat
  {
    if |b| == 0 then 0 else |b[0]|
  }

  /** `new double[kn][depth][kh][kw]`: every weight 0. */
  function ZeroBank(kn: nat, depth: nat, kh: nat, kw: nat): (b: seq<Volume>)
    ensures IsBank(b, kn, depth, kh, kw) && (kn >= 1 ==> Depth(b) == depth)
    ensures forall k, c, y, x :: Read4(b, k, c, y, x) == 0.0
  {
    seq(kn, _ => Zeros3(depth, kh, kw))
  }

  /** `b[k][c][y][x] = value`: that weight becomes value, the shape and every other
      weight stay. */
  function Write4(b: seq<Volume>, k: int, c: int, y: int, x: int, value: real): (r: seq<Volume>)
    requires 0 <= k < |b| && InVolume(b[k], c, y, x)
    ensures forall kn, depth, kh, kw :: IsBank(b, kn, depth, kh, kw) ==> IsBank(r, kn, depth, kh, kw)
    ensures Depth(r) == Depth(b)
    ensures forall a, e, i, j :: Read4(r, a, e, i, j) == if a == k && e == c && i == y && j == x then value else Read4(b, a, e, i, j)
  {
    b[k := Write3(b[k], c, y, x, value)]
  }

  /** Kernels [kn][depth][kh][kw] and biases [kn], as the constructor allocates them. */
  predicate Parameters(kernels: seq<Volume>, biases: seq<real>, kn: int, g: Geometry)
  {
    IsBank(kernels, kn, Depth(kernels), g.kh, g.kw) && |biases| == kn
  }

  /** Every window that the loops over the channels c < cIn and an hOut × wOut output
      read lies inside the (possibly ragged) input. */
  predicate WindowsInside(input: Volume, cIn: int, hOut: int, wOut: int, g: Geometry)
  {
    forall c, oy, ox, ky, kx :: 0 <= c < cIn && 0 <= oy < hOut && 0 <= ox < wOut && 0 <= ky < g.kh && 0 <= kx < g.kw ==>
      InVolume(input, c, Tap(oy, g.stride, ky, g.padding), Tap(ox, g.stride, kx, g.padding))
  }

  /** Every read of `forward`'s loops over kn kernels, cIn channels and an hOut × wOut
      output is inside the input and the kernels; otherwise the first read outside
      throws. */
  predicate ForwardReads(input: Volume, kernels: seq<Volume>, kn: int, cIn: int, hOut: int, wOut: int, g: Geometry)
  {
    kn >= 1 ==>
      WindowsInside(input, cIn, hOut, wOut, g) &&
      (cIn >= 1 && hOut >= 1 && wOut >= 1 && g.kh >= 1 && g.kw >= 1 ==> cIn <= Depth(kernels))
  }

  /** The channel count `forward` scans: kernelChannels, or, when the input has another
      channel count, the smaller of kernelChannels and the PREVIOUS input's. */
  function ScannedChannels(kc: nat, given: nat, previous: nat): (c: nat)
    ensures c <= kc
    ensures given == kc ==> c == kc
    ensures given != kc ==> c <= previous && (c == kc || c == previous)
  {
    if given != kc then Min(kc, previous) else kc
  }

  // ---------------------------------------------------------------- forward

  /** Kernel row ky's part of `sum`: input times kernel along the row. */
  method RowSum(input: Volume, kernels: seq<Volume>, k: int, c: int, oy: int, ox: int, ky: int, g: Geometry) returns (sum: real)
    ensures sum == RowDot(Cells(input), Weights(kernels), k, c, oy, ox, ky, g.kw, g)
  {
    sum := 0.0;
    for kx := 0 to g.kw
      invariant sum == RowDot(Cells(input), Weights(kernels), k, c, oy, ox, ky, kx, g)
    {
      var inputY := Tap(oy, g.stride, ky, g.padding);
      var inputX := Tap(ox, g.stride, kx, g.padding);
      sum := sum + Read3(input, c, inputY, inputX) * Read4(kernels, k, c, ky, kx);
    }
  }

  /** The `sum` of kernel k over channel c at output (oy, ox), accumulated row by row. */
  method WindowSum(input: Volume, kernels: seq<Volume>, k: int, c: int, oy: int, ox: int, g: Geometry) returns (sum: real)
    ensures sum == Window(Cells(input), Weights(kernels), k, c, oy, ox, g.kh, g)
  {
    sum := 0.0;
    for ky := 0 to g.kh
      invariant sum == Window(Cells(input), Weights(kernels), k, c, oy, ox, ky, g)
    {
      var row := RowSum(input, kernels, k, c, oy, ox, ky, g);
      sum := sum + row;
    }
  }

  /** One output row oy of kernel k in the pass over channel c: every cell (k, oy, ox)
      is set to relu(window + bias), every other cell is left as it was. */
  method RowPass(input: Volume, kernels: seq<Volume>, bias: real, out: Volume, k: nat, c: nat, oy: nat,
                 kn: nat, hOut: nat, wOut: nat, g: Geometry)
    returns (r: Volume)
    requires IsVolume(out, kn, hOut, wOut) && k < kn && oy < hOut
    ensures IsVolume(r, kn, hOut, wOut)
    ensures forall a, y, x :: Read3(r, a, y, x) == if a == k && y == oy && 0 <= x < wOut
      then ChannelValue(Cells(input), Weights(kernels), bias, k, c, y, x, g)
      else Read3(out, a, y, x)
  {
    r := out;
    for ox := 0 to wOut
      invariant IsVolume(r, kn, hOut, wOut)
      invariant forall a, y, x :: Read3(r, a, y, x) == if a == k && y == oy && 0 <= x < ox
        then ChannelValue(Cells(input), Weights(kernels), bias, k, c, y, x, g)
        else Read3(out, a, y, x)
    {
      var sum := WindowSum(input, kernels, k, c, oy, ox, g);
      r := Write3(r, k, oy, ox, Activation.Relu(sum + bias));
    }
  }

  /** The pass over channel c for kernel k: plane k of the output becomes the channel's
      activated window sums, overwriting what earlier channels wrote. */
  method ChannelPass(input: Volume, kernels: seq<Volume>, bias: real, out: Volume, k: nat, c: nat,
                     kn: nat, hOut: nat, wOut: nat, g: Geometry)
    returns (r: Volume)
    requires IsVolume(out, kn, hOut, wOut) && k < kn
    ensures IsVolume(r, kn, hOut, wOut)
    ensures forall a, y, x :: Read3(r, a, y, x) == if a == k && 0 <= y < hOut && 0 <= x < wOut
      then ChannelValue(Cells(input), Weights(kernels), bias, k, c, y, x, g)
      else Read3(out, a, y, x)
  {
    r := out;
    for oy := 0 to hOut
      invariant IsVolume(r, kn, hOut, wOut)
      invariant forall a, y, x :: Read3(r, a, y, x) == if a == k && 0 <= y < oy && 0 <= x < wOut
        then ChannelValue(Cells(input), Weights(kernels), bias, k, c, y, x, g)
        else Read3(out, a, y, x)
    {
      r := RowPass(input, kernels, bias, r, k, c, oy, kn, hOut, wOut, g);
    }
  }

  /** Kernel k over the channels c < cIn in order: plane k ends up holding the last
      channel's pass (and is left as it was when cIn is 0). */
  method KernelPass(input: Volume, kernels: seq<Volume>, bias: real, out: Volume, k: nat, cIn: nat,
                    kn: nat, hOut: nat, wOut: nat, g: Geometry)
    returns (r: Volume)
    requires IsVolume(out, kn, hOut, wOut) && k < kn
    ensures IsVolume(r, kn, hOut, wOut)
    ensures forall a, y, x :: Read3(r, a, y, x) == if a == k && 0 <= y < hOut && 0 <= x < wOut && cIn >= 1
      then ChannelValue(Cells(input), Weights(kernels), bias, k, cIn - 1, y, x, g)
      else Read3(out, a, y, x)
  {
    r := out;
    for c := 0 to cIn
      invariant IsVolume(r, kn, hOut, wOut)
      invariant forall a, y, x :: Read3(r, a, y, x) == if a == k && 0 <= y < hOut && 0 <= x < wOut && c >= 1
        then ChannelValue(Cells(input), Weights(kernels), bias, k, c - 1, y, x, g)
        else Read3(out, a, y, x)
    {
      r := ChannelPass(input, kernels, bias, r, k, c, kn, hOut, wOut, g);
    }
  }

  /** The loops of `forward` on a fresh `new double[kn][hOut][wOut]`: cell (k, oy, ox)
      ends up as Response, the last channel's relu(window + bias), or 0 when there is
      no channel to scan. */
  method Outputs(input: Volume, kernels: seq<Volume>, biases: seq<real>, kn: nat, cIn: nat, hOut: nat, wOut: nat, g: Geometry)
    returns (out: Volume)
    requires |biases| == kn
    ensures IsVolume(out, kn, hOut, wOut)
    ensures forall k, oy, ox :: 0 <= k < kn && 0 <= oy < hOut && 0 <= ox < wOut ==>
      out[k][oy][ox] == Response(Cells(input), Weights(kernels), biases[k], k, cIn, oy, ox, g)
  {
    out := Zeros3(kn, hOut, wOut);
    for k := 0 to kn
      invariant IsVolume(out, kn, hOut, wOut)
      invariant forall a, y, x :: 0 <= a < kn && 0 <= y < hOut && 0 <= x < wOut ==>
        Read3(out, a, y, x) == if a < k
          then Response(Cells(input), Weights(kernels), biases[a], a, cIn, y, x, g)
          else 0.0
    {
      out := KernelPass(input, kernels, biases[k], out, k, cIn, kn, hOut, wOut, g);
    }
    assert forall k, oy, ox :: 0 <= k < kn && 0 <= oy < hOut && 0 <= ox < wOut ==> out[k][oy][ox] == Read3(out, k, oy, ox);
  }

  // ---------------------------------------------------------------- backward

  /** delta_O after the gating loops: every cell of the kn × hOut × wOut region passed
      through reluDerivative, every other cell and the shape as they were. */
  ghost predicate GatedRegion(d: Volume, gated: Volume, kn: int, hOut: int, wOut: int)
  {
    SameShape(gated, d) &&
    forall c, y, x :: Read3(gated, c, y, x) == if 0 <= c < kn && 0 <= y < hOut && 0 <= x < wOut
      then Activation.ReluDerivative(Read3(d, c, y, x))
      else Read3(d, c, y, x)
  }

  /** The w loop of the gating at (c, h). */
  method GateRow(d: Volume, c: nat, h: nat, wOut: nat) returns (r: Volume)
    requires c < |d| && h < |d[c]| && wOut <= |d[c][h]|
    ensures SameShape(r, d)
    ensures forall a, y, x :: Read3(r, a, y, x) == if a == c && y == h && 0 <= x < wOut
      then Activation.ReluDerivative(Read3(d, a, y, x))
      else Read3(d, a, y, x)
  {
    r := d;
    for w := 0 to wOut
      invariant SameShape(r, d)
      invariant forall a, y, x :: Read3(r, a, y, x) == if a == c && y == h && 0 <= x < w
        then Activation.ReluDerivative(Read3(d, a, y, x))
        else Read3(d, a, y, x)
    {
      r := Write3(r, c, h, w, Activation.ReluDerivative(r[c][h][w]));
    }
  }

  /** The h loop of the gating on plane c. */
  method GatePlane(d: Volume, c: nat, hOut: nat, wOut: nat) returns (r: Volume)
    requires c < |d| && CoversMatrix(d[c], hOut, wOut)
    ensures SameShape(r, d)
    ensures forall a, y, x :: Read3(r, a, y, x) == if a == c && 0 <= y < hOut && 0 <= x < wOut
      then Activation.ReluDerivative(Read3(d, a, y, x))
      else Read3(d, a, y, x)
  {
    r := d;
    if wOut == 0 {
      return;
    }
    for h := 0 to hOut
      invariant SameShape(r, d)
      invariant forall a, y, x :: Read3(r, a, y, x) == if a == c && 0 <= y < h && 0 <= x < wOut
        then Activation.ReluDerivative(Read3(d, a, y, x))
        else Read3(d, a, y, x)
    {
      r := GateRow(r, c, h, wOut);
    }
  }

  /** The gating loops of `backward` (src/cnn/ConvLayer.java:174-180): delta_O is
      gated IN PLACE, and only over the region of the last output. */
  method GateInPlace(d: Volume, kn: nat, hOut: nat, wOut: nat) returns (r: Volume)
    requires CoversVolume(d, kn, hOut, wOut)
    ensures GatedRegion(d, r, kn, hOut, wOut)
  {
    r := d;
    if hOut == 0 || wOut == 0 {
      return;
    }
    for c := 0 to kn
      invariant SameShape(r, d)
      invariant forall a, y, x :: Read3(r, a, y, x) == if 0 <= a < c && 0 <= y < hOut && 0 <= x < wOut
        then Activation.ReluDerivative(Read3(d, a, y, x))
        else Read3(d, a, y, x)
    {
      r := GatePlane(r, c, hOut, wOut);
    }
  }

  // The input gradient, accumulated with `+=` (src/cnn/ConvLayer.java:184-205): each
  // level of the loop nest is one method on the channel's plane.

  /** The k_h, k_w loops at gradient position (h, w): every cell of the plane that the
      kernel placed at (h, w) covers grows by its product, the rest stays. */
  method AddStamp(d: Volume, kernels: seq<Volume>, plane: Matrix, c: nat, k: nat, h: nat, w: nat,
                  hIn: nat, wIn: nat, g: Geometry)
    returns (r: Matrix)
    requires IsMatrix(plane, hIn, wIn)
    requires g.kh >= 1 && g.kw >= 1 ==> h + g.kh <= hIn && w + g.kw <= wIn
    ensures IsMatrix(r, hIn, wIn)
    ensures forall y, x :: 0 <= y < hIn && 0 <= x < wIn ==>
      r[y][x] == plane[y][x] + Contribution(Cells(d), Weights(kernels), k, c, h, w, y, x, g)
  {
    r := plane;
    for i := 0 to g.kh
      invariant IsMatrix(r, hIn, wIn)
      invariant forall y, x :: 0 <= y < hIn && 0 <= x < wIn ==>
        r[y][x] == plane[y][x] + if 0 <= y - h < i && 0 <= x - w < g.kw then Term(Cells(d), Weights(kernels), k, c, h, w, y, x, g) else 0.0
    {
      for j := 0 to g.kw
        invariant IsMatrix(r, hIn, wIn)
        invariant forall y, x :: 0 <= y < hIn && 0 <= x < wIn ==>
          r[y][x] == plane[y][x] + if 0 <= x - w < g.kw && (0 <= y - h < i || (y - h == i && x - w < j)) then Term(Cells(d), Weights(kernels), k, c, h, w, y, x, g) else 0.0
      {
        var v := Read3(d, k, h, w) * Read4(kernels, k, c, g.kh - i - 1, g.kw - j - 1);
        assert v == Term(Cells(d), Weights(kernels), k, c, h, w, h + i, w + j, g);
        r := Put2(r, h + i, w + j, r[h + i][w + j] + v);
      }
    }
  }

  /** The w loop at gradient row h: a cell grows by the contributions of the columns
      w < wOut. */
  method AddRow(d: Volume, kernels: seq<Volume>, plane: Matrix, c: nat, k: nat, h: nat, wOut: nat,
                hIn: nat, wIn: nat, g: Geometry)
    returns (r: Matrix)
    requires IsMatrix(plane, hIn, wIn)
    requires g.kh >= 1 && g.kw >= 1 && wOut >= 1 ==> h + g.kh <= hIn && wOut - 1 + g.kw <= wIn
    ensures IsMatrix(r, hIn, wIn)
    ensures forall y, x :: 0 <= y < hIn && 0 <= x < wIn ==>
      r[y][x] == plane[y][x] + RowSpread(Cells(d), Weights(kernels), k, c, h, wOut, y, x, g)
  {
    r := plane;
    for w := 0 to wOut
      invariant IsMatrix(r, hIn, wIn)
      invariant forall y, x :: 0 <= y < hIn && 0 <= x < wIn ==>
        r[y][x] == plane[y][x] + RowSpread(Cells(d), Weights(kernels), k, c, h, w, y, x, g)
    {
      r := AddStamp(d, kernels, r, c, k, h, w, hIn, wIn, g);
    }
  }

  /** The h loop for kernel k: a cell grows by the contributions of every position of
      the hOut × wOut gradient. */
  method AddPlane(d: Volume, kernels: seq<Volume>, plane: Matrix, c: nat, k: nat, hOut: nat, wOut: nat,
                  hIn: nat, wIn: nat, g: Geometry)
    returns (r: Matrix)
    requires IsMatrix(plane, hIn, wIn)
    requires g.kh >= 1 && g.kw >= 1 && hOut >= 1 && wOut >= 1 ==> hOut - 1 + g.kh <= hIn && wOut - 1 + g.kw <= wIn
    ensures IsMatrix(r, hIn, wIn)
    ensures forall y, x :: 0 <= y < hIn && 0 <= x < wIn ==>
      r[y][x] == plane[y][x] + PlaneSpread(Cells(d), Weights(kernels), k, c, hOut, wOut, y, x, g)
  {
    r := plane;
    for h := 0 to hOut
      invariant IsMatrix(r, hIn, wIn)
      invariant forall y, x :: 0 <= y < hIn && 0 <= x < wIn ==>
        r[y][x] == plane[y][x] + PlaneSpread(Cells(d), Weights(kernels), k, c, h, wOut, y, x, g)
    {
      r := AddRow(d, kernels, r, c, k, h, wOut, hIn, wIn, g);
    }
  }

  /** The k loop for input channel c on a zero plane: each cell ends up holding the SUM
      of every kernel's contributions, Backflow. */
  method ChannelGradient(d: Volume, kernels: seq<Volume>, c: nat, kn: nat, hOut: nat, wOut: nat,
                         hIn: nat, wIn: nat, g: Geometry)
    returns (r: Matrix)
    requires kn >= 1 && g.kh >= 1 && g.kw >= 1 && hOut >= 1 && wOut >= 1 ==>
      hOut - 1 + g.kh <= hIn && wOut - 1 + g.kw <= wIn
    ensures IsMatrix(r, hIn, wIn)
    ensures forall y, x :: 0 <= y < hIn && 0 <= x < wIn ==>
      r[y][x] == Backflow(Cells(d), Weights(kernels), kn, c, hOut, wOut, y, x, g)
  {
    var zero := CnnUtils.ZeroMatrix(hIn, wIn);
    r := zero.value;
    for k := 0 to kn
      invariant IsMatrix(r, hIn, wIn)
      invariant forall y, x :: 0 <= y < hIn && 0 <= x < wIn ==>
        r[y][x] == Backflow(Cells(d), Weights(kernels), k, c, hOut, wOut, y, x, g)
    {
      r := AddPlane(d, kernels, r, c, k, hOut, wOut, hIn, wIn, g);
    }
  }

  /** `delta_I` of `backward`: a [cIn][hIn][wIn] array whose every channel is reset by
      `zeroMatrix` and then accumulates the products of every kernel and every gradient
      position that covers a cell, so each cell holds Backflow. */
  method InputGradient(d: Volume, kernels: seq<Volume>, cIn: nat, hIn: nat, wIn: nat, kn: nat, hOut: nat, wOut: nat, g: Geometry)
    returns (dI: Volume)
    requires kn >= 1 && g.kh >= 1 && g.kw >= 1 && hOut >= 1 && wOut >= 1 ==>
      hOut - 1 + g.kh <= hIn && wOut - 1 + g.kw <= wIn
    ensures IsVolume(dI, cIn, hIn, wIn)
    ensures forall c, y, x :: 0 <= c < cIn && 0 <= y < hIn && 0 <= x < wIn ==>
      dI[c][y][x] == Backflow(Cells(d), Weights(kernels), kn, c, hOut, wOut, y, x, g)
  {
    dI := Zeros3(cIn, hIn, wIn);
    for c := 0 to cIn
      invariant IsVolume(dI, cIn, hIn, wIn)
      invariant forall a, y, x :: 0 <= a < c && 0 <= y < hIn && 0 <= x < wIn ==>
        dI[a][y][x] == Backflow(Cells(d), Weights(kernels), kn, a, hOut, wOut, y, x, g)
    {
      var plane := ChannelGradient(d, kernels, c, kn, hOut, wOut, hIn, wIn, g);
      dI := dI[c := plane];
    }
  }

  /** `delta_B[k]`: the h, w loops summing plane k of the gated gradient. */
  method BiasGradient(d: Volume, k: nat, hOut: nat, wOut: nat) returns (sum: real)
    ensures sum == Total(Cells(d), k, hOut, wOut)
  {
    sum := 0.0;
    for h := 0 to hOut
      invariant sum == Total(Cells(d), k, h, wOut)
    {
      ghost var before := sum;
      for w := 0 to wOut
        invariant sum == before + RowTotal(Cells(d), k, h, w)
      {
        sum := sum + Read3(d, k, h, w);
      }
    }
  }

  /** Output row h's part of `delta_F_sum`. */
  method GradientRowSum(x: Volume, d: Volume, k: nat, c: nat, y: nat, z: nat, h: nat, wOut: nat, g: Geometry)
    returns (sum: real)
    ensures sum == GradientRow(Cells(x), Cells(d), k, c, y, z, h, wOut, g)
  {
    sum := 0.0;
    for w := 0 to wOut
      invariant sum == GradientRow(Cells(x), Cells(d), k, c, y, z, h, w, g)
    {
      var inH := Tap(h, g.stride, y, g.padding);
      var inW := Tap(w, g.stride, z, g.padding);
      sum := sum + Read3(x, c, inH, inW) * Read3(d, k, h, w);
    }
  }

  /** `delta_F_sum` for kernel k, channel c, kernel cell (y, z): the input the cell
      met at every output position times the gradient there. */
  method KernelCellGradient(x: Volume, d: Volume, k: nat, c: nat, y: nat, z: nat, hOut: nat, wOut: nat, g: Geometry)
    returns (sum: real)
    ensures sum == Gradient(Cells(x), Cells(d), k, c, y, z, hOut, wOut, g)
  {
    sum := 0.0;
    for h := 0 to hOut
      invariant sum == Gradient(Cells(x), Cells(d), k, c, y, z, h, wOut, g)
    {
      var row := GradientRowSum(x, d, k, c, y, z, h, wOut, g);
      sum := sum + row;
    }
  }

  /** `delta_F[k]`: a zero [cIn][kh][kw] array whose every cell receives its
      KernelCellGradient. */
  method KernelGradient(x: Volume, d: Volume, k: nat, cIn: nat, hOut: nat, wOut: nat, g: Geometry)
    returns (v: Volume)
    ensures IsVolume(v, cIn, g.kh, g.kw)
    ensures forall c, y, z :: 0 <= c < cIn && 0 <= y < g.kh && 0 <= z < g.kw ==>
      v[c][y][z] == Gradient(Cells(x), Cells(d), k, c, y, z, hOut, wOut, g)
  {
    v := Zeros3(cIn, g.kh, g.kw);
    for c := 0 to cIn
      invariant IsVolume(v, cIn, g.kh, g.kw)
      invariant forall a, y, z :: 0 <= a < c && 0 <= y < g.kh && 0 <= z < g.kw ==>
        v[a][y][z] == Gradient(Cells(x), Cells(d), k, a, y, z, hOut, wOut, g)
    {
      for y := 0 to g.kh
        invariant IsVolume(v, cIn, g.kh, g.kw)
        invariant forall a, b, z :: 0 <= a < cIn && 0 <= b < g.kh && 0 <= z < g.kw && (a < c || (a == c && b < y)) ==>
          v[a][b][z] == Gradient(Cells(x), Cells(d), k, a, b, z, hOut, wOut, g)
      {
        for z := 0 to g.kw
          invariant IsVolume(v, cIn, g.kh, g.kw)
          invariant forall a, b, e :: 0 <= a < cIn && 0 <= b < g.kh && 0 <= e < g.kw && (a < c || (a == c && (b < y || (b == y && e < z)))) ==>
            v[a][b][e] == Gradient(Cells(x), Cells(d), k, a, b, e, hOut, wOut, g)
        {
          var sum := KernelCellGradient(x, d, k, c, y, z, hOut, wOut, g);
          Put3Shape(v, cIn, g.kh, g.kw, c, y, z, sum);
          v := Put3(v, c, y, z, sum);
        }
      }
    }
  }

  /** The k loop computing `delta_B` and `delta_F` together. */
  method ParameterGradients(x: Volume, d: Volume, kn: nat, cIn: nat, hOut: nat, wOut: nat, g: Geometry)
    returns (dB: seq<real>, dF: seq<Volume>)
    ensures |dB| == kn && forall k :: 0 <= k < kn ==> dB[k] == Total(Cells(d), k, hOut, wOut)
    ensures forall k, c, y, z :: 0 <= k < kn && 0 <= c < cIn && 0 <= y < g.kh && 0 <= z < g.kw ==>
      Read4(dF, k, c, y, z) == Gradient(Cells(x), Cells(d), k, c, y, z, hOut, wOut, g)
  {
    dB := seq(kn, _ => 0.0);
    dF := seq(kn, _ => Zeros3(cIn, g.kh, g.kw));
    for k := 0 to kn
      invariant |dB| == kn && forall a :: 0 <= a < k ==> dB[a] == Total(Cells(d), a, hOut, wOut)
      invariant |dF| == kn && forall a :: 0 <= a < kn ==> IsVolume(dF[a], cIn, g.kh, g.kw)
      invariant forall a, c, y, z :: 0 <= a < k && 0 <= c < cIn && 0 <= y < g.kh && 0 <= z < g.kw ==>
        Read4(dF, a, c, y, z) == Gradient(Cells(x), Cells(d), a, c, y, z, hOut, wOut, g)
    {
      var b := BiasGradient(d, k, hOut, wOut);
      dB := dB[k := b];
      var v := KernelGradient(x, d, k, cIn, hOut, wOut, g);
      dF := dF[k := v];
    }
  }

  // The optimiser step (src/cnn/ConvLayer.java:245-255).

  /** The y, x loops for kernel k, channel c: each weight becomes
      `kernels[k][c][y][x] - delta_F[k][c][y][x] · lr`. */
  method ShiftPlane(kernels: seq<Volume>, dF: seq<Volume>, kn: nat, k: nat, c: nat, lr: real, g: Geometry)
    returns (r: seq<Volume>)
    requires IsBank(kernels, kn, Depth(kernels), g.kh, g.kw) && k < kn && (g.kh >= 1 && g.kw >= 1 ==> c < Depth(kernels))
    ensures IsBank(r, kn, Depth(kernels), g.kh, g.kw) && Depth(r) == Depth(kernels)
    ensures forall a, b, y, z :: Read4(r, a, b, y, z) == if a == k && b == c && 0 <= y < g.kh && 0 <= z < g.kw
      then Descended(Read4(kernels, a, b, y, z), Read4(dF, a, b, y, z), lr)
      else Read4(kernels, a, b, y, z)
  {
    r := kernels;
    for y := 0 to g.kh
      invariant IsBank(r, kn, Depth(kernels), g.kh, g.kw) && Depth(r) == Depth(kernels)
      invariant forall a, b, e, z :: Read4(r, a, b, e, z) == if a == k && b == c && 0 <= e < y && 0 <= z < g.kw
        then Descended(Read4(kernels, a, b, e, z), Read4(dF, a, b, e, z), lr)
        else Read4(kernels, a, b, e, z)
    {
      for x := 0 to g.kw
        invariant IsBank(r, kn, Depth(kernels), g.kh, g.kw) && Depth(r) == Depth(kernels)
        invariant forall a, b, e, z :: Read4(r, a, b, e, z) == if a == k && b == c && 0 <= z < g.kw && (0 <= e < y || (e == y && z < x))
          then Descended(Read4(kernels, a, b, e, z), Read4(dF, a, b, e, z), lr)
          else Read4(kernels, a, b, e, z)
      {
        r := Write4(r, k, c, y, x, Descended(Read4(r, k, c, y, x), Read4(dF, k, c, y, x), lr));
      }
    }
  }

  /** The c loop for kernel k, over the first kc channels. */
  method ShiftKernel(kernels: seq<Volume>, dF: seq<Volume>, kn: nat, k: nat, kc: nat, lr: real, g: Geometry)
    returns (r: seq<Volume>)
    requires IsBank(kernels, kn, Depth(kernels), g.kh, g.kw) && k < kn && (g.kh >= 1 && g.kw >= 1 ==> kc <= Depth(kernels))
    ensures IsBank(r, kn, Depth(kernels), g.kh, g.kw) && Depth(r) == Depth(kernels)
    ensures forall a, b, y, z :: Read4(r, a, b, y, z) == if a == k && 0 <= b < kc && 0 <= y < g.kh && 0 <= z < g.kw
      then Descended(Read4(kernels, a, b, y, z), Read4(dF, a, b, y, z), lr)
      else Read4(kernels, a, b, y, z)
  {
    r := kernels;
    for c := 0 to kc
      invariant IsBank(r, kn, Depth(kernels), g.kh, g.kw) && Depth(r) == Depth(kernels)
      invariant forall a, b, y, z :: Read4(r, a, b, y, z) == if a == k && 0 <= b < c && 0 <= y < g.kh && 0 <= z < g.kw
        then Descended(Read4(kernels, a, b, y, z), Read4(dF, a, b, y, z), lr)
        else Read4(kernels, a, b, y, z)
    {
      r := ShiftPlane(r, dF, kn, k, c, lr, g);
    }
  }

  /** The k loop of the optimiser step: bias k moves by -delta_B[k]·lr, and the first
      kc channels of kernel k by -delta_F[k]·lr. */
  method Descend(kernels: seq<Volume>, biases: seq<real>, dB: seq<real>, dF: seq<Volume>, kn: nat, kc: nat, lr: real, g: Geometry)
    returns (newKernels: seq<Volume>, newBiases: seq<real>)
    requires Parameters(kernels, biases, kn, g) && (kn >= 1 && g.kh >= 1 && g.kw >= 1 ==> kc <= Depth(kernels))
    requires |dB| == kn
    ensures Parameters(newKernels, newBiases, kn, g) && Depth(newKernels) == Depth(kernels)
    ensures forall k :: 0 <= k < kn ==> newBiases[k] == Descended(biases[k], dB[k], lr)
    ensures forall a, b, y, z :: Read4(newKernels, a, b, y, z) == if 0 <= a < kn && 0 <= b < kc && 0 <= y < g.kh && 0 <= z < g.kw
      then Descended(Read4(kernels, a, b, y, z), Read4(dF, a, b, y, z), lr)
      else Read4(kernels, a, b, y, z)
  {
    newKernels, newBiases := kernels, biases;
    for k := 0 to kn
      invariant Parameters(newKernels, newBiases, kn, g) && Depth(newKernels) == Depth(kernels)
      invariant forall a :: 0 <= a < kn ==> newBiases[a] == if a < k then Descended(biases[a], dB[a], lr) else biases[a]
      invariant forall a, b, y, z :: Read4(newKernels, a, b, y, z) == if 0 <= a < k && 0 <= b < kc && 0 <= y < g.kh && 0 <= z < g.kw
        then Descended(Read4(kernels, a, b, y, z), Read4(dF, a, b, y, z), lr)
        else Read4(kernels, a, b, y, z)
    {
      newBiases := newBiases[k := Descended(newBiases[k], dB[k], lr)];
      newKernels := ShiftKernel(newKernels, dF, kn, k, kc, lr, g);
    }
  }

  /** The index condition of `backward` on a cached input x with at least one channel
      and one row: delta_O covers the region the loops read; when the input-gradient
      loops run, every write lies inside x's first plane size, every kernel read and
      every window of `delta_F` inside its array; the optimiser reads `delta_F[k][c]`
      and kernel channel c for c < kc. */
  predicate BackwardFits(x: Volume, kernels: seq<Volume>, d: Volume, kn: int, kc: int, hOut: int, wOut: int, g: Geometry)
    requires |x| >= 1 && |x[0]| >= 1
  {
    CoversVolume(d, kn, hOut, wOut) &&
    (kn >= 1 && hOut >= 1 && wOut >= 1 && g.kh >= 1 && g.kw >= 1 ==>
      |x| <= Depth(kernels) && hOut - 1 + g.kh <= |x[0]| && wOut - 1 + g.kw <= |x[0][0]| &&
      WindowsInside(x, |x|, hOut, wOut, g)) &&
    (kn >= 1 && g.kh >= 1 && g.kw >= 1 ==> kc <= |x| && kc <= Depth(kernels))
  }

  /** The input gradient: each cell holds the SUM of the kernel products that reach it. */
  ghost predicate SpreadBack(deltaI: Volume, gated: Volume, k0: seq<Volume>, kn: int, hOut: int, wOut: int, g: Geometry)
  {
    forall c, y, z :: InVolume(deltaI, c, y, z) ==>
      deltaI[c][y][z] == Backflow(Cells(gated), Weights(k0), kn, c, hOut, wOut, y, z, g)
  }

  /** Bias k moves by -lr · (sum of plane k of the gated gradient). */
  ghost predicate BiasesStepped(b0: seq<real>, b1: seq<real>, gated: Volume, hOut: int, wOut: int, lr: real)
  {
    |b1| == |b0| &&
    forall k :: 0 <= k < |b0| ==> b1[k] == Descended(b0[k], Total(Cells(gated), k, hOut, wOut), lr)
  }

  /** Channel b < kc of kernel a < kn moves by -lr · Gradient; every other weight stays. */
  ghost predicate KernelsStepped(k0: seq<Volume>, k1: seq<Volume>, x: Volume, gated: Volume, kn: int, kc: int, hOut: int, wOut: int,
                                 lr: real, g: Geometry)
  {
    forall a, b, y, z :: Read4(k1, a, b, y, z) == if 0 <= a < kn && 0 <= b < kc && 0 <= y < g.kh && 0 <= z < g.kw
      then Descended(Read4(k0, a, b, y, z), Gradient(Cells(x), Cells(gated), a, b, y, z, hOut, wOut, g), lr)
      else Read4(k0, a, b, y, z)
  }

  /** `delta_I` for an output of hOut × wOut positions (none when either is below 1). */
  method SpreadInput(gated: Volume, kernels: seq<Volume>, cIn: nat, hIn: nat, wIn: nat, kn: nat, hOut: int, wOut: int, g: Geometry)
    returns (deltaI: Volume)
    requires kn >= 1 && g.kh >= 1 && g.kw >= 1 && hOut >= 1 && wOut >= 1 ==>
      hOut - 1 + g.kh <= hIn && wOut - 1 + g.kw <= wIn
    ensures IsVolume(deltaI, cIn, hIn, wIn)
    ensures SpreadBack(deltaI, gated, kernels, kn, hOut, wOut, g)
  {
    var hRows: nat := if hOut >= 1 then hOut else 0;
    var wCols: nat := if wOut >= 1 then wOut else 0;
    deltaI := InputGradient(gated, kernels, cIn, hIn, wIn, kn, hRows, wCols, g);
    forall c, y, z | InVolume(deltaI, c, y, z)
      ensures deltaI[c][y][z] == Backflow(Cells(gated), Weights(kernels), kn, c, hOut, wOut, y, z, g)
    {
      ClippedBackflow(Cells(gated), Weights(kernels), kn, c, hOut, wOut, hRows, wCols, y, z, g);
    }
  }

  /** `delta_B` and `delta_F` for an output of hOut × wOut positions (none when
      either is below 1). */
  method Gradients(x: Volume, gated: Volume, kn: nat, cIn: nat, hOut: int, wOut: int, g: Geometry)
    returns (dB: seq<real>, dF: seq<Volume>)
    ensures |dB| == kn && forall k :: 0 <= k < kn ==> dB[k] == Total(Cells(gated), k, hOut, wOut)
    ensures forall k, c, y, z :: 0 <= k < kn && 0 <= c < cIn && 0 <= y < g.kh && 0 <= z < g.kw ==>
      Read4(dF, k, c, y, z) == Gradient(Cells(x), Cells(gated), k, c, y, z, hOut, wOut, g)
  {
    var hRows: nat := if hOut >= 1 then hOut else 0;
    var wCols: nat := if wOut >= 1 then wOut else 0;
    dB, dF := ParameterGradients(x, gated, kn, cIn, hRows, wCols, g);
    ClippedSums(Cells(x), Cells(gated), hOut, wOut, hRows, wCols, g);
  }

  /** `delta_B`, `delta_F` and the optimiser step. */
  method Train(x: Volume, kernels: seq<Volume>, biases: seq<real>, gated: Volume, kn: nat, kc: nat, cIn: nat,
               hOut: int, wOut: int, lr: real, g: Geometry)
    returns (newKernels: seq<Volume>, newBiases: seq<real>)
    requires Parameters(kernels, biases, kn, g)
    requires kn >= 1 && g.kh >= 1 && g.kw >= 1 ==> kc <= cIn && kc <= Depth(kernels)
    ensures Parameters(newKernels, newBiases, kn, g) && Depth(newKernels) == Depth(kernels)
    ensures BiasesStepped(biases, newBiases, gated, hOut, wOut, lr)
    ensures KernelsStepped(kernels, newKernels, x, gated, kn, kc, hOut, wOut, lr, g)
  {
    var dB, dF := Gradients(x, gated, kn, cIn, hOut, wOut, g);
    newKernels, newBiases := Descend(kernels, biases, dB, dF, kn, kc, lr, g);
  }

  /** The contract of `backward` on values: x is the cached input, k0 and b0 the
      parameters before the call, d the caller's delta_O, and r, gated, k1 and b1 what
      the call leaves. */
  ghost predicate Learned(x: Volume, k0: seq<Volume>, b0: seq<real>, d: Volume, kn: int, kc: int, hOut: int, wOut: int,
                          lr: real, g: Geometry, r: Result<Volume>, gated: Volume, k1: seq<Volume>, b1: seq<real>)
  {
    (r.Err? <==> |x| == 0 || |x[0]| == 0) &&
    (r.Err? ==> r.error == IndexOutOfBounds && gated == d && k1 == k0 && b1 == b0) &&
    (r.Ok? ==>
      GatedRegion(d, gated, kn, hOut, wOut) &&
      IsVolume(r.value, |x|, |x[0]|, |x[0][0]|) &&
      SpreadBack(r.value, gated, k0, kn, hOut, wOut, g) &&
      BiasesStepped(b0, b1, gated, hOut, wOut, lr) &&
      KernelsStepped(k0, k1, x, gated, kn, kc, hOut, wOut, lr, g))
  }

  /** At learning rate 0 `backward` moves no parameter: whichever path it takes, the
      biases are the old ones and every kernel weight reads as it did before the call. */
  lemma ZeroRateKeepsParameters(x: Volume, k0: seq<Volume>, b0: seq<real>, d: Volume, kn: int, kc: int, hOut: int,
                                wOut: int, g: Geometry, r: Result<Volume>, gated: Volume, k1: seq<Volume>, b1: seq<real>)
    requires Learned(x, k0, b0, d, kn, kc, hOut, wOut, 0.0, g, r, gated, k1, b1)
    ensures b1 == b0
    ensures forall a, b, y, z :: Read4(k1, a, b, y, z) == Read4(k0, a, b, y, z)
  {
  }

  /** `backward` on values, from the cached input x: an input with no channel or no
      row fails at `input_tensor[0]` before anything changes. Otherwise the caller's
      delta_O is gated in place over the last output's region (`gated`), the returned
      input gradient holds in each cell the SUM of the kernel products that reach it
      (Backflow), every bias moves by -lr · (sum of its gated plane) and the first kc
      channels of every kernel by -lr · Gradient, all from the parameters as they were
      before the step. */
  method Learn(x: Volume, kernels: seq<Volume>, biases: seq<real>, d: Volume, kn: nat, kc: nat, hOut: int, wOut: int,
               lr: real, g: Geometry)
    returns (r: Result<Volume>, gated: Volume, newKernels: seq<Volume>, newBiases: seq<real>)
    requires Parameters(kernels, biases, kn, g)
    requires |x| >= 1 && |x[0]| >= 1 ==> BackwardFits(x, kernels, d, kn, kc, hOut, wOut, g)
    ensures Parameters(newKernels, newBiases, kn, g) && Depth(newKernels) == Depth(kernels)
    ensures Learned(x, kernels, biases, d, kn, kc, hOut, wOut, lr, g, r, gated, newKernels, newBiases)
  {
    gated, newKernels, newBiases := d, kernels, biases;
    if |x| == 0 || |x[0]| == 0 {
      return Err(IndexOutOfBounds), gated, newKernels, newBiases;
    }
    var cIn, hIn, wIn := |x|, |x[0]|, |x[0][0]|;
    var hRows: nat := if hOut >= 1 then hOut else 0;
    var wCols: nat := if wOut >= 1 then wOut else 0;
    gated := GateInPlace(d, kn, hRows, wCols);
    var deltaI := SpreadInput(gated, kernels, cIn, hIn, wIn, kn, hOut, wOut, g);
    newKernels, newBiases := Train(x, kernels, biases, gated, kn, kc, cIn, hOut, wOut, lr, g);
    r := Ok(deltaI);
  }

  // ---------------------------------------------------------------- initialisation

  /** The y, x loops of `init` for kernel k, channel c: each weight gets an arbitrary
      value (a Gaussian draw times 0.01); nothing else changes. */
  method NoisePlane(kernels: seq<Volume>, kn: nat, k: nat, c: nat, g: Geometry) returns (r: seq<Volume>)
    requires IsBank(kernels, kn, Depth(kernels), g.kh, g.kw) && k < kn && (g.kh >= 1 && g.kw >= 1 ==> c < Depth(kernels))
    ensures IsBank(r, kn, Depth(kernels), g.kh, g.kw) && Depth(r) == Depth(kernels)
    ensures forall a, b, y, x :: a != k || b != c ==> Read4(r, a, b, y, x) == Read4(kernels, a, b, y, x)
  {
    r := kernels;
    for y := 0 to g.kh
      invariant IsBank(r, kn, Depth(kernels), g.kh, g.kw) && Depth(r) == Depth(kernels)
      invariant forall a, b, e, x :: a != k || b != c ==> Read4(r, a, b, e, x) == Read4(kernels, a, b, e, x)
    {
      for x := 0 to g.kw
        invariant IsBank(r, kn, Depth(kernels), g.kh, g.kw) && Depth(r) == Depth(kernels)
        invariant forall a, b, e, z :: a != k || b != c ==> Read4(r, a, b, e, z) == Read4(kernels, a, b, e, z)
      {
        var noise: real := *;
        r := Write4(r, k, c, y, x, noise);
      }
    }
  }

  /** `init`: every bias becomes 0 and, for each kernel, the channels c < kc get
      arbitrary weights; the other weights are left as they were. */
  method Initialise(kernels: seq<Volume>, biases: seq<real>, kn: nat, kc: nat, g: Geometry)
    returns (newKernels: seq<Volume>, newBiases: seq<real>)
    requires Parameters(kernels, biases, kn, g) && (kn >= 1 && g.kh >= 1 && g.kw >= 1 ==> kc <= Depth(kernels))
    ensures Parameters(newKernels, newBiases, kn, g) && Depth(newKernels) == Depth(kernels)
    ensures forall k :: 0 <= k < kn ==> newBiases[k] == 0.0
    ensures forall a, b, y, x :: !(0 <= b < kc) ==> Read4(newKernels, a, b, y, x) == Read4(kernels, a, b, y, x)
  {
    newKernels, newBiases := kernels, biases;
    for k := 0 to kn
      invariant Parameters(newKernels, newBiases, kn, g) && Depth(newKernels) == Depth(kernels)
      invariant forall a :: 0 <= a < k ==> newBiases[a] == 0.0
      invariant forall a, b, y, x :: !(0 <= b < kc) ==> Read4(newKernels, a, b, y, x) == Read4(kernels, a, b, y, x)
    {
      newBiases := newBiases[k := 0.0];
      for c := 0 to kc
        invariant Parameters(newKernels, newBiases, kn, g) && Depth(newKernels) == Depth(kernels)
        invariant forall a :: 0 <= a <= k ==> newBiases[a] == 0.0
        invariant forall a, b, y, x :: !(0 <= b < kc) ==> Read4(newKernels, a, b, y, x) == Read4(kernels, a, b, y, x)
      {
        newKernels := NoisePlane(newKernels, kn, k, c, g);
      }
    }
  }

  /** What `forward` returns for an input, the length of the input cached before it
      and the layer's parameters: the errors in the order Java raises them, then every
      output cell (k, oy, ox) the Response of the ScannedChannels channels. */
  ghost predicate Emitted(input: Volume, previous: nat, kernels: seq<Volume>, biases: seq<real>, kn: nat, kc: nat,
                          g: Geometry, r: Result<Volume>)
  {
    var cIn := ScannedChannels(kc, |input|, previous);
    |biases| == kn &&
    (|input| == 0 ==> r == Err(IndexOutOfBounds)) &&
    (|input| >= 1 && g.stride == 0 ==> r == Err(DivisionByZero)) &&
    (|input| >= 1 && g.stride != 0 && |input[0]| < 2 ==> r == Err(IndexOutOfBounds)) &&
    (|input| >= 1 && g.stride != 0 && |input[0]| >= 2 ==>
      var hOut := JavaInt.OutputSize(|input[0]|, g.kh, g.padding, g.stride);
      var wOut := JavaInt.OutputSize(|input[0][1]|, g.kw, g.padding, g.stride);
      (r == Err(InvalidDimensions) <==> hOut < 1 || wOut < 1 || kn < 1) &&
      (r.Ok? <==> hOut >= 1 && wOut >= 1 && kn >= 1 && ForwardReads(input, kernels, kn, cIn, hOut, wOut, g)) &&
      (r.Err? && r != Err(InvalidDimensions) ==> r == Err(IndexOutOfBounds)) &&
      (r.Ok? ==> (IsVolume(r.value, kn, hOut, wOut) &&
        forall k, oy, ox :: 0 <= k < kn && 0 <= oy < hOut && 0 <= ox < wOut ==>
          r.value[k][oy][ox] == Response(Cells(input), Weights(kernels), biases[k], k, cIn, oy, ox, g))))
  }

  /** The layer (src/cnn/ConvLayer.java). Arrays are held as values, so the caller's
      copy of an array the layer keeps, or of the gradient it gates, is not shared. */
  class ConvLayer {
    var kernelNum: nat
    var kernelChannels: nat
    var kernelHeight: nat
    var kernelWidth: nat
    var kernels: seq<Volume>
    var biases: seq<real>
    var outputHeight: int
    var outputWidth: int
    var stride: int
    var padding: int
    var inputTensor: Volume

    /** Kernel size, stride and padding as the index arithmetic uses them. */
    function Frame(): Geometry
      reads this
    {
      Geometry(kernelHeight, kernelWidth, stride, padding)
    }

    /** kernels [kernelNum][channels][kernelHeight][kernelWidth] and biases [kernelNum]. */
    predicate Valid()
      reads this
    {
      Parameters(kernels, biases, kernelNum, Frame())
    }

    /** Stride 1, padding 0, output size 0 and an empty cached input. kernelChannels is
        never assigned and stays 0, so `init` draws no weight: every kernel weight and
        every bias is 0. */
    constructor (kernelNum: nat, channels: nat, kernelHeight: nat, kernelWidth: nat)
      ensures Valid()
      ensures this.kernelNum == kernelNum && this.kernelHeight == kernelHeight && this.kernelWidth == kernelWidth
      ensures kernelChannels == 0 && stride == 1 && padding == 0 && outputHeight == 0 && outputWidth == 0
      ensures inputTensor == []
      ensures IsBank(kernels, kernelNum, channels, kernelHeight, kernelWidth)
      ensures forall k, c, y, x :: Read4(kernels, k, c, y, x) == 0.0
      ensures forall k :: 0 <= k < kernelNum ==> biases[k] == 0.0
    {
      this.kernelNum := kernelNum;
      this.kernelWidth := kernelWidth;
      this.kernelHeight := kernelHeight;
      kernelChannels := 0;
      stride := 1;
      padding := 0;
      outputHeight := 0;
      outputWidth := 0;
      inputTensor := [];
      kernels := ZeroBank(kernelNum, channels, kernelHeight, kernelWidth);
      biases := seq(kernelNum, _ => 0.0);
      new;
      Init();
    }

    /** `init`: the biases become 0 and the first kernelChannels channels of every
        kernel arbitrary weights. */
    method Init()
      requires Valid() && (kernelNum >= 1 && kernelHeight >= 1 && kernelWidth >= 1 ==> kernelChannels <= Depth(kernels))
      modifies this
      ensures Valid() && Depth(kernels) == Depth(old(kernels))
      ensures forall k :: 0 <= k < kernelNum ==> biases[k] == 0.0
      ensures forall a, b, y, x :: !(0 <= b < kernelChannels) ==> Read4(kernels, a, b, y, x) == Read4(old(kernels), a, b, y, x)
      ensures kernelNum == old(kernelNum) && kernelChannels == old(kernelChannels)
      ensures kernelHeight == old(kernelHeight) && kernelWidth == old(kernelWidth)
      ensures stride == old(stride) && padding == old(padding)
      ensures outputHeight == old(outputHeight) && outputWidth == old(outputWidth)
      ensures inputTensor == old(inputTensor)
    {
      kernels, biases := Initialise(kernels, biases, kernelNum, kernelChannels, Frame());
    }

    /** `forward`: caches the input, then computes the output size from the height of
        channel 0 and the width of ITS ROW 1, failing as Java does: no channel at
        `input[0]`, a zero stride at the division, fewer than two rows at `input[0][1]`
        (the height already stored), an output or kernel count below 1, and a read
        outside the input or the kernels. Otherwise every output cell (k, oy, ox) is
        the Response of the ScannedChannels channels, the value the LAST channel wrote. */
    method Forward(input: Volume) returns (r: Result<Volume>)
      requires Valid()
      modifies this
      ensures Valid() && inputTensor == input
      ensures kernels == old(kernels) && biases == old(biases) && kernelNum == old(kernelNum)
      ensures kernelChannels == old(kernelChannels) && kernelHeight == old(kernelHeight)
      ensures kernelWidth == old(kernelWidth) && stride == old(stride) && padding == old(padding)
      ensures |input| == 0 || stride == 0 ==> outputHeight == old(outputHeight)
      ensures |input| == 0 || stride == 0 || |input[0]| < 2 ==> outputWidth == old(outputWidth)
      ensures |input| == 0 ==> r == Err(IndexOutOfBounds)
      ensures |input| >= 1 && stride == 0 ==> r == Err(DivisionByZero)
      ensures |input| >= 1 && stride != 0 ==>
        outputHeight == JavaInt.OutputSize(|input[0]|, kernelHeight, padding, stride)
      ensures |input| >= 1 && stride != 0 && |input[0]| < 2 ==> r == Err(IndexOutOfBounds)
      ensures |input| >= 1 && stride != 0 && |input[0]| >= 2 ==>
        outputWidth == JavaInt.OutputSize(|input[0][1]|, kernelWidth, padding, stride) &&
        (r == Err(InvalidDimensions) <==> outputHeight < 1 || outputWidth < 1 || kernelNum < 1) &&
        (r.Ok? <==> (outputHeight >= 1 && outputWidth >= 1 && kernelNum >= 1 &&
          ForwardReads(input, kernels, kernelNum, ScannedChannels(kernelChannels, |input|, |old(inputTensor)|),
                       outputHeight, outputWidth, Frame()))) &&
        (r.Err? && r != Err(InvalidDimensions) ==> r == Err(IndexOutOfBounds))
      ensures r.Ok? ==> IsVolume(r.value, kernelNum, outputHeight, outputWidth)
      ensures r.Ok? ==> forall k, oy, ox :: 0 <= k < kernelNum && 0 <= oy < outputHeight && 0 <= ox < outputWidth ==>
        r.value[k][oy][ox] == Response(Cells(input), Weights(kernels), biases[k], k,
                                       ScannedChannels(kernelChannels, |input|, |old(inputTensor)|), oy, ox, Frame())
      ensures Emitted(input, |old(inputTensor)|, kernels, biases, kernelNum, kernelChannels, Frame(), r)
    {
      var cIn := ScannedChannels(kernelChannels, |input|, |inputTensor|);
      inputTensor := input;
      if |input| == 0 {
        return Err(IndexOutOfBounds);
      }
      if stride == 0 {
        return Err(DivisionByZero);
      }
      outputHeight := JavaInt.OutputSize(|input[0]|, kernelHeight, padding, stride);
      if |input[0]| < 2 {
        return Err(IndexOutOfBounds);
      }
      outputWidth := JavaInt.OutputSize(|input[0][1]|, kernelWidth, padding, stride);
      var hOut := outputHeight;
      var wOut := outputWidth;
      if hOut < 1 || wOut < 1 || kernelNum < 1 {
        return Err(InvalidDimensions);
      }
      if !ForwardReads(input, kernels, kernelNum, cIn, hOut, wOut, Frame()) {
        return Err(IndexOutOfBounds);
      }
      var output := Outputs(input, kernels, biases, kernelNum, cIn, hOut, wOut, Frame());
      return Ok(output);
    }

    /** `backward`: Learn on the cached input and the current parameters; the
        parameters become Learn's, the cached input and the geometry stay. */
    method Backward(deltaO: Volume, learningRate: real) returns (r: Result<Volume>, gated: Volume)
      requires Valid()
      requires |inputTensor| >= 1 && |inputTensor[0]| >= 1 ==>
        BackwardFits(inputTensor, kernels, deltaO, kernelNum, kernelChannels, outputHeight, outputWidth, Frame())
      modifies this
      ensures Valid() && Depth(kernels) == Depth(old(kernels))
      ensures kernelNum == old(kernelNum) && kernelChannels == old(kernelChannels)
      ensures kernelHeight == old(kernelHeight) && kernelWidth == old(kernelWidth)
      ensures stride == old(stride) && padding == old(padding) && inputTensor == old(inputTensor)
      ensures outputHeight == old(outputHeight) && outputWidth == old(outputWidth)
      ensures Learned(inputTensor, old(kernels), old(biases), deltaO, kernelNum, kernelChannels, outputHeight, outputWidth,
                      learningRate, Frame(), r, gated, kernels, biases)
    {
      r, gated, kernels, biases :=
        Learn(inputTensor, kernels, biases, deltaO, kernelNum, kernelChannels, outputHeight, outputWidth, learningRate, Frame());
    }

    method SetStride(stride: int)
      modifies this
      ensures this.stride == stride
      ensures kernels == old(kernels) && biases == old(biases) && padding == old(padding)
      ensures kernelNum == old(kernelNum) && kernelChannels == old(kernelChannels)
      ensures kernelHeight == old(kernelHeight) && kernelWidth == old(kernelWidth)
      ensures outputHeight == old(outputHeight) && outputWidth == old(outputWidth)
      ensures inputTensor == old(inputTensor)
    {
      this.stride := stride;
    }

    method SetPadding(padding: int)
      modifies this
      ensures this.padding == padding
      ensures kernels == old(kernels) && biases == old(biases) && stride == old(stride)
      ensures kernelNum == old(kernelNum) && kernelChannels == old(kernelChannels)
      ensures kernelHeight == old(kernelHeight) && kernelWidth == old(kernelWidth)
      ensures outputHeight == old(outputHeight) && outputWidth == old(outputWidth)
      ensures inputTensor == old(inputTensor)
    {
      this.padding := padding;
    }

    function GetStride(): int
      reads this
    {
      stride
    }

    function GetPadding(): int
      reads this
    {
      padding
    }
  }

  /** A freshly constructed layer scans no input channel (kernelChannels is 0), so a
      successful first `forward` returns all zeros whatever the input. */
  method ForwardAfterConstruction(kernelNum: nat, channels: nat, kernelHeight: nat, kernelWidth: nat, input: Volume)
    returns (r: Result<Volume>)
    ensures |input| == 0 ==> r == Err(IndexOutOfBounds)
    ensures r.Ok? ==> forall k, oy, ox :: Read3(r.value, k, oy, ox) == 0.0
  {
    var layer := new ConvLayer(kernelNum, channels, kernelHeight, kernelWidth);
    r := layer.Forward(input);
  }

  /** Before any `forward` the cached input is the empty array, so `backward` fails at
      `input_tensor[0]` and leaves the gradient as it was. */
  method BackwardBeforeForward(kernelNum: nat, channels: nat, kernelHeight: nat, kernelWidth: nat, deltaO: Volume, learningRate: real)
    returns (r: Result<Volume>, gated: Volume)
    ensures r == Err(IndexOutOfBounds) && gated == deltaO
  {
    var layer := new ConvLayer(kernelNum, channels, kernelHeight, kernelWidth);
    r, gated := layer.Backward(deltaO, learningRate);
  }
}
