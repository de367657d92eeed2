/** The convolution layer over `data.Tensor` values (src/layers/Conv.java). The field
    kernelChannels is never assigned by the Java class and so stays 0; the contracts
    below hold for any value of it. Every index the loops touch is required to lie
    inside its tensor (in particular, every window inside the input). */
module ConvTensor {
  import opened Outcomes
  import opened Shapes
  import opened Tensors
  import opened ConvMath
  import opened Arrays
  import JavaInt
  import Activation

  /** `t.get(a, b, c)` for an in-range index of a well-formed rank-3 tensor; 0 elsewhere
      (never read there). */
  function Get3(t: Tensor, a: int, b: int, c: int): real
  {
    if Wf(t) && |t.shape| == 3 && 0 <= a < t.shape[0] && 0 <= b < t.shape[1] && 0 <= c < t.shape[2]
    then assert InRange(t.shape, [a, b, c]); At(t, [a, b, c])
    else 0.0
  }

  /** `t.get(a, b, c, d)` for an in-range index of a well-formed rank-4 tensor. */
  function Get4(t: Tensor, a: int, b: int, c: int, d: int): real
  {
    if Wf(t) && |t.shape| == 4 && 0 <= a < t.shape[0] && 0 <= b < t.shape[1] && 0 <= c < t.shape[2] && 0 <= d < t.shape[3]
    then assert InRange(t.shape, [a, b, c, d]); At(t, [a, b, c, d])
    else 0.0
  }

  /** `t.get(a)` for an in-range index of a well-formed rank-1 tensor. */
  function Get1(t: Tensor, a: int): real
  {
    if Wf(t) && |t.shape| == 1 && 0 <= a < t.shape[0]
    then assert InRange(t.shape, [a]); At(t, [a])
    else 0.0
  }

  /** `new Tensor(new int[]{a, b, c})`: a zero tensor of a × b × c cells (the
      constructor only needs the product to be non-negative). */
  function ZeroVolume(a: int, b: int, c: int): (t: Tensor)
    requires a * (b * c) >= 0
    ensures Wf(t) && t.shape == [a, b, c]
    ensures forall i, j, l :: Get3(t, i, j, l) == 0.0
  {
    Product3(a, b, c);
    var t := Zeros([a, b, c]);
    assert forall i, j, l :: Get3(t, i, j, l) == 0.0 by {
      forall i, j, l | 0 <= i < a && 0 <= j < b && 0 <= l < c
        ensures Get3(t, i, j, l) == 0.0
      {
        assert InRange(t.shape, [i, j, l]);
        OffsetBounds(t.shape, [i, j, l]);
      }
    }
    t
  }

  /** The reads of a rank-3 tensor as a field. */
  function Cells(t: Tensor): Field
  {
    (a, b, c) => Get3(t, a, b, c)
  }

  /** The reads of a rank-4 tensor as a kernel bank. */
  function Cells4(t: Tensor): Bank
  {
    (a, b, c, d) => Get4(t, a, b, c, d)
  }

  /** Kernels [kn, channels, kh, kw] and biases [kn], as the constructor allocates them. */
  predicate Parameters(kernels: Tensor, biases: Tensor, kn: int, g: Geometry)
  {
    Wf(kernels) && |kernels.shape| == 4 && kernels.shape[0] == kn && kernels.shape[1] >= 0 &&
    kernels.shape[2] == g.kh && kernels.shape[3] == g.kw &&
    Wf(biases) && biases.shape == [kn]
  }

  /** The reads of channels c' < c for an hOut × wOut output are inside the input and
      the kernels (nothing is read when the output or the kernel is empty). */
  predicate Readable(input: Tensor, kernels: Tensor, c: int, hOut: int, wOut: int, g: Geometry)
    requires |kernels.shape| == 4
  {
    hOut >= 1 && wOut >= 1 && g.kh >= 1 && g.kw >= 1 ==>
      Wf(input) && |input.shape| == 3 && c <= input.shape[0] && c <= kernels.shape[1] &&
      Reaches(hOut, g.kh, g.stride, g.padding, input.shape[1]) &&
      Reaches(wOut, g.kw, g.stride, g.padding, input.shape[2])
  }

  /** The index condition of the forward loops over kn kernels and cIn channels. */
  predicate ForwardFits(input: Tensor, kernels: Tensor, kn: int, cIn: int, hOut: int, wOut: int, g: Geometry)
    requires |kernels.shape| == 4
  {
    kn >= 1 && cIn >= 1 ==> Readable(input, kernels, cIn, hOut, wOut, g)
  }

  // ---------------------------------------------------------------- forward

  /** Kernel row ky's part of `sum`: input times kernel along the row. */
  method RowSum(input: Tensor, kernels: Tensor, k: int, c: int, oy: int, ox: int, ky: int, g: Geometry) returns (sum: real)
    ensures sum == RowDot(Cells(input), Cells4(kernels), k, c, oy, ox, ky, g.kw, g)
  {
    sum := 0.0;
    for kx := 0 to g.kw
      invariant sum == RowDot(Cells(input), Cells4(kernels), k, c, oy, ox, ky, kx, g)
    {
      var inputY := Tap(oy, g.stride, ky, g.padding);
      var inputX := Tap(ox, g.stride, kx, g.padding);
      sum := sum + Get3(input, c, inputY, inputX) * Get4(kernels, k, c, ky, kx);
    }
  }

  /** The `sum` of kernel k over channel c at output (oy, ox), accumulated row by row. */
  method WindowSum(input: Tensor, kernels: Tensor, k: int, c: int, oy: int, ox: int, g: Geometry) returns (sum: real)
    ensures sum == Window(Cells(input), Cells4(kernels), k, c, oy, ox, g.kh, g)
  {
    sum := 0.0;
    for ky := 0 to g.kh
      invariant sum == Window(Cells(input), Cells4(kernels), k, c, oy, ox, ky, g)
    {
      var row := RowSum(input, kernels, k, c, oy, ox, ky, g);
      sum := sum + row;
    }
  }


  /** `t.set(v, a, b, c)` at an in-range index of a well-formed rank-3 tensor: that
      cell becomes v, every other read stays. */
  function Set3(t: Tensor, a: int, b: int, c: int, v: real): (r: Tensor)
    requires Wf(t) && |t.shape| == 3 && 0 <= a < t.shape[0] && 0 <= b < t.shape[1] && 0 <= c < t.shape[2]
    ensures Wf(r) && r.shape == t.shape
    ensures forall i, j, l :: Get3(r, i, j, l) == if i == a && j == b && l == c then v else Get3(t, i, j, l)
  {
    assert InRange(t.shape, [a, b, c]);
    var r := Put(t, [a, b, c], v);
    assert forall i, j, l :: Get3(r, i, j, l) == if i == a && j == b && l == c then v else Get3(t, i, j, l) by {
      forall i, j, l
        ensures Get3(r, i, j, l) == if i == a && j == b && l == c then v else Get3(t, i, j, l)
      {
        if 0 <= i < t.shape[0] && 0 <= j < t.shape[1] && 0 <= l < t.shape[2] {
          assert InRange(t.shape, [i, j, l]);
          assert ([i, j, l] == [a, b, c]) <==> (i == a && j == b && l == c);
        }
      }
    }
    r
  }

  /** One output row oy of kernel k in the pass over channel c: every cell (k, oy, ox)
      is set to relu(window + bias), every other cell is left as it was. */
  method RowPass(input: Tensor, kernels: Tensor, biases: Tensor, out: Tensor, k: nat, c: nat, oy: nat,
                 kn: nat, hOut: nat, wOut: nat, g: Geometry)
    returns (r: Tensor)
    requires Wf(out) && out.shape == [kn, hOut, wOut] && k < kn && oy < hOut
    requires Parameters(kernels, biases, kn, g)
    requires Readable(input, kernels, c + 1, hOut, wOut, g)
    ensures Wf(r) && r.shape == out.shape
    ensures forall a, y, x :: Get3(r, a, y, x) == if a == k && y == oy && 0 <= x < wOut
      then ChannelValue(Cells(input), Cells4(kernels), Get1(biases, k), k, c, y, x, g)
      else Get3(out, a, y, x)
  {
    r := out;
    for ox := 0 to wOut
      invariant Wf(r) && r.shape == out.shape
      invariant forall a, y, x :: Get3(r, a, y, x) == if a == k && y == oy && 0 <= x < ox
        then ChannelValue(Cells(input), Cells4(kernels), Get1(biases, k), k, c, y, x, g)
        else Get3(out, a, y, x)
    {
      var sum := WindowSum(input, kernels, k, c, oy, ox, g);
      r := Set3(r, k, oy, ox, Activation.Relu(sum + Get1(biases, k)));
    }
  }

  /** The pass over channel c for kernel k: plane k of the output becomes the channel's
      activated window sums, overwriting what earlier channels wrote. */
  method ChannelPass(input: Tensor, kernels: Tensor, biases: Tensor, out: Tensor, k: nat, c: nat,
                     kn: nat, hOut: nat, wOut: nat, g: Geometry)
    returns (r: Tensor)
    requires Wf(out) && out.shape == [kn, hOut, wOut] && k < kn
    requires Parameters(kernels, biases, kn, g)
    requires Readable(input, kernels, c + 1, hOut, wOut, g)
    ensures Wf(r) && r.shape == out.shape
    ensures forall a, y, x :: Get3(r, a, y, x) == if a == k && 0 <= y < hOut && 0 <= x < wOut
      then ChannelValue(Cells(input), Cells4(kernels), Get1(biases, k), k, c, y, x, g)
      else Get3(out, a, y, x)
  {
    r := out;
    for oy := 0 to hOut
      invariant Wf(r) && r.shape == out.shape
      invariant forall a, y, x :: Get3(r, a, y, x) == if a == k && 0 <= y < oy && 0 <= x < wOut
        then ChannelValue(Cells(input), Cells4(kernels), Get1(biases, k), k, c, y, x, g)
        else Get3(out, a, y, x)
    {
      r := RowPass(input, kernels, biases, r, k, c, oy, kn, hOut, wOut, g);
    }
  }

  /** Kernel k over the channels c < cIn in order: plane k ends up holding the last
      channel's pass (and is left as it was when cIn <= 0). */
  method KernelPass(input: Tensor, kernels: Tensor, biases: Tensor, out: Tensor, k: nat, cIn: int,
                    kn: nat, hOut: nat, wOut: nat, g: Geometry)
    returns (r: Tensor)
    requires Wf(out) && out.shape == [kn, hOut, wOut] && k < kn
    requires Parameters(kernels, biases, kn, g)
    requires ForwardFits(input, kernels, kn, cIn, hOut, wOut, g)
    ensures Wf(r) && r.shape == out.shape
    ensures forall a, y, x :: Get3(r, a, y, x) == if a == k && 0 <= y < hOut && 0 <= x < wOut && cIn >= 1
      then ChannelValue(Cells(input), Cells4(kernels), Get1(biases, k), k, cIn - 1, y, x, g)
      else Get3(out, a, y, x)
  {
    r := out;
    var c := 0;
    while c < cIn
      invariant 0 <= c && (c <= cIn || c == 0)
      invariant Wf(r) && r.shape == out.shape
      invariant forall a, y, x :: Get3(r, a, y, x) == if a == k && 0 <= y < hOut && 0 <= x < wOut && c >= 1
        then ChannelValue(Cells(input), Cells4(kernels), Get1(biases, k), k, c - 1, y, x, g)
        else Get3(out, a, y, x)
    {
      r := ChannelPass(input, kernels, biases, r, k, c, kn, hOut, wOut, g);
      c := c + 1;
    }
  }

  /** The loops of `forward` on a fresh zero output of kn × hOut × wOut cells: cell
      (k, oy, ox) ends up as Response, the last channel's relu(window + bias), or 0
      when there is no channel to scan. */
  method Outputs(input: Tensor, kernels: Tensor, biases: Tensor, kn: nat, cIn: int, hOut: nat, wOut: nat, g: Geometry)
    returns (out: Tensor)
    requires Parameters(kernels, biases, kn, g)
    requires ForwardFits(input, kernels, kn, cIn, hOut, wOut, g)
    ensures Wf(out) && out.shape == [kn, hOut, wOut]
    ensures forall k, oy, ox :: 0 <= k < kn && 0 <= oy < hOut && 0 <= ox < wOut ==>
      Get3(out, k, oy, ox) == Response(Cells(input), Cells4(kernels), Get1(biases, k), k, cIn, oy, ox, g)
  {
    MulMonotone(0, hOut, wOut);
    MulMonotone(0, kn, hOut * wOut);
    out := ZeroVolume(kn, hOut, wOut);
    for k := 0 to kn
      invariant Wf(out) && out.shape == [kn, hOut, wOut]
      invariant forall a, y, x :: 0 <= a < kn && 0 <= y < hOut && 0 <= x < wOut ==>
        Get3(out, a, y, x) == if a < k
          then Response(Cells(input), Cells4(kernels), Get1(biases, a), a, cIn, y, x, g)
          else 0.0
    {
      out := KernelPass(input, kernels, biases, out, k, cIn, kn, hOut, wOut, g);
    }
  }

  // ---------------------------------------------------------------- backward

  /** `delta_O.map(Activation::derivativeReLU)`: every cell of the buffer gated to 0 or 1. */
  function Gated(t: Tensor): (r: Tensor)
    ensures r.shape == t.shape && |r.data| == |t.data|
    ensures forall i :: 0 <= i < |t.data| ==> r.data[i] == Activation.ReluDerivative(t.data[i])
  {
    Tensor(t.shape, seq(|t.data|, i requires 0 <= i < |t.data| => Activation.ReluDerivative(t.data[i])))
  }

  /** Reading the gated tensor is gating the reads: every cell is 0 or 1, 1 exactly
      where the gradient was positive. */
  lemma GatedReads(t: Tensor, a: int, b: int, c: int)
    ensures Cells(Gated(t))(a, b, c) == Gate(Cells(t))(a, b, c)
    ensures Cells(Gated(t))(a, b, c) == 1.0 <==> Cells(t)(a, b, c) > 0.0
    ensures Cells(Gated(t))(a, b, c) == 0.0 <==> Cells(t)(a, b, c) <= 0.0
  {
    var u := Gated(t);
    var v := Activation.ReluDerivative(Get3(t, a, b, c));
    if Wf(t) && |t.shape| == 3 && 0 <= a < t.shape[0] && 0 <= b < t.shape[1] && 0 <= c < t.shape[2] {
      assert InRange(t.shape, [a, b, c]);
      OffsetBounds(t.shape, [a, b, c]);
      var i := Offset(t.shape, [a, b, c]);
      assert Get3(t, a, b, c) == t.data[i];
      assert Get3(u, a, b, c) == u.data[i] == v;
    } else {
      assert Get3(u, a, b, c) == 0.0 == Get3(t, a, b, c);
    }
    assert Cells(u)(a, b, c) == Get3(u, a, b, c);
    assert Gate(Cells(t))(a, b, c) == v;
  }


  /** `t.inc(v, a)` at an in-range index of a rank-1 tensor. */
  function Inc1(t: Tensor, a: int, v: real): (r: Tensor)
    requires Wf(t) && |t.shape| == 1 && 0 <= a < t.shape[0]
    ensures Wf(r) && r.shape == t.shape
    ensures forall i :: Get1(r, i) == if i == a then Get1(t, i) + v else Get1(t, i)
  {
    assert InRange(t.shape, [a]);
    var r := AddAt(t, [a], v);
    assert forall i :: Get1(r, i) == if i == a then Get1(t, i) + v else Get1(t, i) by {
      forall i | 0 <= i < t.shape[0]
        ensures Get1(r, i) == if i == a then Get1(t, i) + v else Get1(t, i)
      {
        assert InRange(t.shape, [i]);
        assert ([i] == [a]) <==> i == a;
      }
    }
    r
  }

  /** A cell after an increment by v: bumped when it is the incremented one. */
  function Bumped(cell: real, v: real, hit: bool): real
  {
    if hit then cell + v else cell
  }

  /** `t.inc(v, a, b, c, d)` at an in-range index of a rank-4 tensor. */
  function Inc4(t: Tensor, a: int, b: int, c: int, d: int, v: real): (r: Tensor)
    requires Wf(t) && |t.shape| == 4 && 0 <= a < t.shape[0] && 0 <= b < t.shape[1]
    requires 0 <= c < t.shape[2] && 0 <= d < t.shape[3]
    ensures Wf(r) && r.shape == t.shape
    ensures forall i, j, l, m :: Get4(r, i, j, l, m) == Bumped(Get4(t, i, j, l, m), v, i == a && j == b && l == c && m == d)
  {
    assert InRange(t.shape, [a, b, c, d]);
    var r := AddAt(t, [a, b, c, d], v);
    assert forall i, j, l, m :: Get4(r, i, j, l, m) == Bumped(Get4(t, i, j, l, m), v, i == a && j == b && l == c && m == d) by {
      forall i, j, l, m | 0 <= i < t.shape[0] && 0 <= j < t.shape[1] && 0 <= l < t.shape[2] && 0 <= m < t.shape[3]
        ensures Get4(r, i, j, l, m) == Bumped(Get4(t, i, j, l, m), v, i == a && j == b && l == c && m == d)
      {
        assert InRange(t.shape, [i, j, l, m]);
        assert ([i, j, l, m] == [a, b, c, d]) <==> (i == a && j == b && l == c && m == d);
      }
    }
    r
  }

  // The input gradient, written with `set` (src/layers/Conv.java:177): each level of
  // the loop nest is one method, and each states which write is the last one so far.

  /** The k_h, k_w loops at gradient position (h, w): every input cell (c, y, x) the
      kernel placed at (h, w) covers is SET to its product, the rest is left alone. */
  method Stamp(d: Tensor, kernels: Tensor, dI: Tensor, c: nat, k: nat, h: nat, w: nat, g: Geometry)
    returns (r: Tensor)
    requires Wf(dI) && |dI.shape| == 3 && c < dI.shape[0]
    requires g.kh >= 1 && g.kw >= 1 ==> h + g.kh <= dI.shape[1] && w + g.kw <= dI.shape[2]
    ensures Wf(r) && r.shape == dI.shape
    ensures forall a, y, x :: Get3(r, a, y, x) == if a == c && Covers(h, w, y, x, g)
      then Term(Cells(d), Cells4(kernels), k, c, h, w, y, x, g)
      else Get3(dI, a, y, x)
  {
    r := dI;
    for i := 0 to g.kh
      invariant Wf(r) && r.shape == dI.shape
      invariant forall a, y, x :: Get3(r, a, y, x) == if a == c && 0 <= y - h < i && 0 <= x - w < g.kw
        then Term(Cells(d), Cells4(kernels), k, c, h, w, y, x, g)
        else Get3(dI, a, y, x)
    {
      for j := 0 to g.kw
        invariant Wf(r) && r.shape == dI.shape
        invariant forall a, y, x :: Get3(r, a, y, x) == if a == c && 0 <= x - w < g.kw && (0 <= y - h < i || (y - h == i && x - w < j))
          then Term(Cells(d), Cells4(kernels), k, c, h, w, y, x, g)
          else Get3(dI, a, y, x)
      {
        var v := Get3(d, k, h, w) * Get4(kernels, k, c, g.kh - i - 1, g.kw - j - 1);
        assert v == Term(Cells(d), Cells4(kernels), k, c, h, w, h + i, w + j, g);
        r := Set3(r, c, h + i, w + j, v);
      }
    }
  }

  /** The w loop at gradient row h: a covered cell holds the product of the last
      column that covers it, Min(x, wOut − 1). */
  method StampRow(d: Tensor, kernels: Tensor, dI: Tensor, c: nat, k: nat, h: nat, wOut: nat, g: Geometry)
    returns (r: Tensor)
    requires Wf(dI) && |dI.shape| == 3 && c < dI.shape[0]
    requires g.kh >= 1 && g.kw >= 1 && wOut >= 1 ==> h + g.kh <= dI.shape[1] && wOut - 1 + g.kw <= dI.shape[2]
    ensures Wf(r) && r.shape == dI.shape
    ensures forall a, y, x :: Get3(r, a, y, x) == if a == c && RowHit(h, wOut, y, x, g)
      then Term(Cells(d), Cells4(kernels), k, c, h, Min(x, wOut - 1), y, x, g)
      else Get3(dI, a, y, x)
  {
    r := dI;
    for w := 0 to wOut
      invariant Wf(r) && r.shape == dI.shape
      invariant forall a, y, x :: Get3(r, a, y, x) == if a == c && RowHit(h, w, y, x, g)
        then Term(Cells(d), Cells4(kernels), k, c, h, Min(x, w - 1), y, x, g)
        else Get3(dI, a, y, x)
    {
      r := Stamp(d, kernels, r, c, k, h, w, g);
    }
  }

  /** The h loop for kernel k: a covered cell holds the product of the last covering
      position (Min(y, hOut − 1), Min(x, wOut − 1)). */
  method StampPlane(d: Tensor, kernels: Tensor, dI: Tensor, c: nat, k: nat, hOut: nat, wOut: nat, g: Geometry)
    returns (r: Tensor)
    requires Wf(dI) && |dI.shape| == 3 && c < dI.shape[0]
    requires g.kh >= 1 && g.kw >= 1 && hOut >= 1 && wOut >= 1 ==>
      hOut - 1 + g.kh <= dI.shape[1] && wOut - 1 + g.kw <= dI.shape[2]
    ensures Wf(r) && r.shape == dI.shape
    ensures forall a, y, x :: Get3(r, a, y, x) == if a == c && PlaneHit(hOut, wOut, y, x, g)
      then Term(Cells(d), Cells4(kernels), k, c, Min(y, hOut - 1), Min(x, wOut - 1), y, x, g)
      else Get3(dI, a, y, x)
  {
    r := dI;
    for h := 0 to hOut
      invariant Wf(r) && r.shape == dI.shape
      invariant forall a, y, x :: Get3(r, a, y, x) == if a == c && PlaneHit(h, wOut, y, x, g)
        then Term(Cells(d), Cells4(kernels), k, c, Min(y, h - 1), Min(x, wOut - 1), y, x, g)
        else Get3(dI, a, y, x)
    {
      r := StampRow(d, kernels, r, c, k, h, wOut, g);
    }
  }

  /** The k loop for input channel c: every kernel writes the same cells, so the last
      kernel's products remain. */
  method StampChannel(d: Tensor, kernels: Tensor, dI: Tensor, c: nat, kn: nat, hOut: nat, wOut: nat, g: Geometry)
    returns (r: Tensor)
    requires Wf(dI) && |dI.shape| == 3 && c < dI.shape[0]
    requires kn >= 1 && g.kh >= 1 && g.kw >= 1 && hOut >= 1 && wOut >= 1 ==>
      hOut - 1 + g.kh <= dI.shape[1] && wOut - 1 + g.kw <= dI.shape[2]
    ensures Wf(r) && r.shape == dI.shape
    ensures forall a, y, x :: Get3(r, a, y, x) == if a == c && kn >= 1 && PlaneHit(hOut, wOut, y, x, g)
      then LastWrite(Cells(d), Cells4(kernels), kn, c, hOut, wOut, y, x, g)
      else Get3(dI, a, y, x)
  {
    r := dI;
    for k := 0 to kn
      invariant Wf(r) && r.shape == dI.shape
      invariant forall a, y, x :: Get3(r, a, y, x) == if a == c && k >= 1 && PlaneHit(hOut, wOut, y, x, g)
        then LastWrite(Cells(d), Cells4(kernels), k, c, hOut, wOut, y, x, g)
        else Get3(dI, a, y, x)
    {
      r := StampPlane(d, kernels, r, c, k, hOut, wOut, g);
    }
  }

  /** `delta_I` of `backward`: a zero [cIn, hIn, wIn] tensor into which the loops
      c, k, h, w, k_h, k_w SET every product, so each cell holds the last write
      (LastWrite), never a sum. */
  method InputGradient(d: Tensor, kernels: Tensor, cIn: nat, hIn: int, wIn: int, kn: nat, hOut: nat, wOut: nat, g: Geometry)
    returns (dI: Tensor)
    requires cIn * (hIn * wIn) >= 0
    requires cIn >= 1 && kn >= 1 && g.kh >= 1 && g.kw >= 1 && hOut >= 1 && wOut >= 1 ==>
      hOut - 1 + g.kh <= hIn && wOut - 1 + g.kw <= wIn
    ensures Wf(dI) && dI.shape == [cIn, hIn, wIn]
    ensures forall c, y, x :: 0 <= c < cIn && 0 <= y < hIn && 0 <= x < wIn ==>
      Get3(dI, c, y, x) == LastWrite(Cells(d), Cells4(kernels), kn, c, hOut, wOut, y, x, g)
  {
    dI := ZeroVolume(cIn, hIn, wIn);
    for c := 0 to cIn
      invariant Wf(dI) && dI.shape == [cIn, hIn, wIn]
      invariant forall a, y, x :: Get3(dI, a, y, x) == if 0 <= a < c
        then LastWrite(Cells(d), Cells4(kernels), kn, a, hOut, wOut, y, x, g)
        else 0.0
    {
      dI := StampChannel(d, kernels, dI, c, kn, hOut, wOut, g);
    }
  }

  /** `delta_B[k]`: the h, w loops summing plane k of the gated gradient. */
  method BiasGradient(d: Tensor, k: nat, hOut: nat, wOut: nat) returns (sum: real)
    ensures sum == Total(Cells(d), k, hOut, wOut)
  {
    sum := 0.0;
    for h := 0 to hOut
      invariant sum == Total(Cells(d), k, h, wOut)
    {
      ghost var before := sum;
      for w := 0 to wOut
        invariant sum == before + RowTotal(Cells(d), k, h, w)
      {
        sum := sum + Get3(d, k, h, w);
      }
    }
  }

  /** Output row h's part of `delta_F_sum`. */
  method GradientRowSum(x: Tensor, d: Tensor, k: nat, c: nat, y: nat, z: nat, h: nat, wOut: nat, g: Geometry)
    returns (sum: real)
    ensures sum == GradientRow(Cells(x), Cells(d), k, c, y, z, h, wOut, g)
  {
    sum := 0.0;
    for w := 0 to wOut
      invariant sum == GradientRow(Cells(x), Cells(d), k, c, y, z, h, w, g)
    {
      var inH := Tap(h, g.stride, y, g.padding);
      var inW := Tap(w, g.stride, z, g.padding);
      sum := sum + Get3(x, c, inH, inW) * Get3(d, k, h, w);
    }
  }

  /** `delta_F_sum` for kernel k, channel c, kernel cell (y, z): the input the cell
      met at every output position times the gradient there. */
  method KernelCellGradient(x: Tensor, d: Tensor, k: nat, c: nat, y: nat, z: nat, hOut: nat, wOut: nat, g: Geometry)
    returns (sum: real)
    ensures sum == Gradient(Cells(x), Cells(d), k, c, y, z, hOut, wOut, g)
  {
    sum := 0.0;
    for h := 0 to hOut
      invariant sum == Gradient(Cells(x), Cells(d), k, c, y, z, h, wOut, g)
    {
      var row := GradientRowSum(x, d, k, c, y, z, h, wOut, g);
      sum := sum + row;
    }
  }


  /** `delta_F[k]`: a zero [cIn][kh][kw] array whose every cell receives its
      KernelCellGradient. */
  method KernelGradient(x: Tensor, d: Tensor, k: nat, cIn: nat, hOut: nat, wOut: nat, g: Geometry)
    returns (v: Volume)
    ensures IsVolume(v, cIn, g.kh, g.kw)
    ensures forall c, y, z :: 0 <= c < cIn && 0 <= y < g.kh && 0 <= z < g.kw ==>
      v[c][y][z] == Gradient(Cells(x), Cells(d), k, c, y, z, hOut, wOut, g)
  {
    v := Zeros3(cIn, g.kh, g.kw);
    for c := 0 to cIn
      invariant IsVolume(v, cIn, g.kh, g.kw)
      invariant forall a, y, z :: 0 <= a < c && 0 <= y < g.kh && 0 <= z < g.kw ==>
        v[a][y][z] == Gradient(Cells(x), Cells(d), k, a, y, z, hOut, wOut, g)
    {
      for y := 0 to g.kh
        invariant IsVolume(v, cIn, g.kh, g.kw)
        invariant forall a, b, z :: 0 <= a < cIn && 0 <= b < g.kh && 0 <= z < g.kw && (a < c || (a == c && b < y)) ==>
          v[a][b][z] == Gradient(Cells(x), Cells(d), k, a, b, z, hOut, wOut, g)
      {
        for z := 0 to g.kw
          invariant IsVolume(v, cIn, g.kh, g.kw)
          invariant forall a, b, e :: 0 <= a < cIn && 0 <= b < g.kh && 0 <= e < g.kw && (a < c || (a == c && (b < y || (b == y && e < z)))) ==>
            v[a][b][e] == Gradient(Cells(x), Cells(d), k, a, b, e, hOut, wOut, g)
        {
          var sum := KernelCellGradient(x, d, k, c, y, z, hOut, wOut, g);
          Put3Shape(v, cIn, g.kh, g.kw, c, y, z, sum);
          v := Put3(v, c, y, z, sum);
        }
      }
    }
  }

  /** The k loop computing `delta_B` and `delta_F` together. */
  method ParameterGradients(x: Tensor, d: Tensor, kn: nat, cIn: nat, hOut: nat, wOut: nat, g: Geometry)
    returns (dB: seq<real>, dF: seq<Volume>)
    ensures |dB| == kn && forall k :: 0 <= k < kn ==> dB[k] == Total(Cells(d), k, hOut, wOut)
    ensures |dF| == kn && forall k :: 0 <= k < kn ==> IsVolume(dF[k], cIn, g.kh, g.kw)
    ensures forall k, c, y, z :: 0 <= k < kn && 0 <= c < cIn && 0 <= y < g.kh && 0 <= z < g.kw ==>
      Read4(dF, k, c, y, z) == Gradient(Cells(x), Cells(d), k, c, y, z, hOut, wOut, g)
  {
    dB := seq(kn, _ => 0.0);
    dF := seq(kn, _ => Zeros3(cIn, g.kh, g.kw));
    for k := 0 to kn
      invariant |dB| == kn && forall a :: 0 <= a < k ==> dB[a] == Total(Cells(d), a, hOut, wOut)
      invariant |dF| == kn && forall a :: 0 <= a < kn ==> IsVolume(dF[a], cIn, g.kh, g.kw)
      invariant forall a, c, y, z :: 0 <= a < k && 0 <= c < cIn && 0 <= y < g.kh && 0 <= z < g.kw ==>
        Read4(dF, a, c, y, z) == Gradient(Cells(x), Cells(d), a, c, y, z, hOut, wOut, g)
    {
      var b := BiasGradient(d, k, hOut, wOut);
      dB := dB[k := b];
      var v := KernelGradient(x, d, k, cIn, hOut, wOut, g);
      dF := dF[k := v];
    }
  }

  // The optimiser step (src/layers/Conv.java:227-241).

  /** The y, x loops for kernel k, channel c: each weight moves by -delta_F[k][c][y][x]·lr. */
  method ShiftPlane(kernels: Tensor, dF: seq<Volume>, k: nat, c: nat, lr: real, g: Geometry) returns (r: Tensor)
    requires Wf(kernels) && |kernels.shape| == 4 && k < kernels.shape[0] && (g.kh >= 1 && g.kw >= 1 ==> c < kernels.shape[1])
    requires kernels.shape[2] == g.kh && kernels.shape[3] == g.kw
    ensures Wf(r) && r.shape == kernels.shape
    ensures forall a, b, y, z :: Get4(r, a, b, y, z) == if a == k && b == c && 0 <= y < g.kh && 0 <= z < g.kw
      then Descended(Get4(kernels, a, b, y, z), Read4(dF, a, b, y, z), lr)
      else Get4(kernels, a, b, y, z)
  {
    r := kernels;
    for y := 0 to g.kh
      invariant Wf(r) && r.shape == kernels.shape
      invariant forall a, b, e, z :: Get4(r, a, b, e, z) == if a == k && b == c && 0 <= e < y && 0 <= z < g.kw
        then Descended(Get4(kernels, a, b, e, z), Read4(dF, a, b, e, z), lr)
        else Get4(kernels, a, b, e, z)
    {
      for x := 0 to g.kw
        invariant Wf(r) && r.shape == kernels.shape
        invariant forall a, b, e, z :: Get4(r, a, b, e, z) == if a == k && b == c && 0 <= z < g.kw && (0 <= e < y || (e == y && z < x))
          then Descended(Get4(kernels, a, b, e, z), Read4(dF, a, b, e, z), lr)
          else Get4(kernels, a, b, e, z)
      {
        r := Inc4(r, k, c, y, x, -Read4(dF, k, c, y, x) * lr);
      }
    }
  }

  /** The c loop for kernel k, over the first kc channels. */
  method ShiftKernel(kernels: Tensor, dF: seq<Volume>, k: nat, kc: nat, lr: real, g: Geometry) returns (r: Tensor)
    requires Wf(kernels) && |kernels.shape| == 4 && k < kernels.shape[0] && (g.kh >= 1 && g.kw >= 1 ==> kc <= kernels.shape[1])
    requires kernels.shape[2] == g.kh && kernels.shape[3] == g.kw
    ensures Wf(r) && r.shape == kernels.shape
    ensures forall a, b, y, z :: Get4(r, a, b, y, z) == if a == k && 0 <= b < kc && 0 <= y < g.kh && 0 <= z < g.kw
      then Descended(Get4(kernels, a, b, y, z), Read4(dF, a, b, y, z), lr)
      else Get4(kernels, a, b, y, z)
  {
    r := kernels;
    for c := 0 to kc
      invariant Wf(r) && r.shape == kernels.shape
      invariant forall a, b, y, z :: Get4(r, a, b, y, z) == if a == k && 0 <= b < c && 0 <= y < g.kh && 0 <= z < g.kw
        then Descended(Get4(kernels, a, b, y, z), Read4(dF, a, b, y, z), lr)
        else Get4(kernels, a, b, y, z)
    {
      r := ShiftPlane(r, dF, k, c, lr, g);
    }
  }

  /** The k loop of the optimiser step: bias k moves by -delta_B[k]·lr, and the
      first kc channels of kernel k by -delta_F[k]·lr. */
  method Descend(kernels: Tensor, biases: Tensor, dB: seq<real>, dF: seq<Volume>, kn: nat, kc: nat, lr: real, g: Geometry)
    returns (newKernels: Tensor, newBiases: Tensor)
    requires Parameters(kernels, biases, kn, g) && (kn >= 1 && g.kh >= 1 && g.kw >= 1 ==> kc <= kernels.shape[1])
    requires |dB| == kn
    ensures Parameters(newKernels, newBiases, kn, g) && newKernels.shape == kernels.shape
    ensures forall k :: Get1(newBiases, k) == if 0 <= k < kn then Descended(Get1(biases, k), dB[k], lr) else Get1(biases, k)
    ensures forall a, b, y, z :: Get4(newKernels, a, b, y, z) == if 0 <= a < kn && 0 <= b < kc && 0 <= y < g.kh && 0 <= z < g.kw
      then Descended(Get4(kernels, a, b, y, z), Read4(dF, a, b, y, z), lr)
      else Get4(kernels, a, b, y, z)
  {
    newKernels, newBiases := kernels, biases;
    for k := 0 to kn
      invariant Parameters(newKernels, newBiases, kn, g) && newKernels.shape == kernels.shape
      invariant forall a :: Get1(newBiases, a) == if 0 <= a < k then Descended(Get1(biases, a), dB[a], lr) else Get1(biases, a)
      invariant forall a, b, y, z :: Get4(newKernels, a, b, y, z) == if 0 <= a < k && 0 <= b < kc && 0 <= y < g.kh && 0 <= z < g.kw
        then Descended(Get4(kernels, a, b, y, z), Read4(dF, a, b, y, z), lr)
        else Get4(kernels, a, b, y, z)
    {
      newBiases := Inc1(newBiases, k, -dB[k] * lr);
      newKernels := ShiftKernel(newKernels, dF, k, kc, lr, g);
    }
  }

  /** The index condition of `backward`: a rank-3 gated gradient covers every (k, h, w)
      the loops read; when the input-gradient loops run, every write lies inside the
      input shape and every read of kernel channel c inside its tensor, and on a rank-3
      input every window; the optimiser reads `delta_F[k][c]` and kernel channel c for
      c < kc. */
  predicate BackwardFits(x: Tensor, kernels: Tensor, d: Tensor, kn: int, kc: int, hOut: int, wOut: int, g: Geometry)
    requires |x.shape| >= 3 && |kernels.shape| == 4
  {
    (kn >= 1 && hOut >= 1 && wOut >= 1 && |d.shape| == 3 ==>
      Wf(d) && kn <= d.shape[0] && hOut <= d.shape[1] && wOut <= d.shape[2]) &&
    (x.shape[0] >= 1 && kn >= 1 && hOut >= 1 && wOut >= 1 && g.kh >= 1 && g.kw >= 1 && |d.shape| == 3 ==>
      x.shape[0] <= kernels.shape[1] && hOut - 1 + g.kh <= x.shape[1] && wOut - 1 + g.kw <= x.shape[2] &&
      (|x.shape| == 3 ==>
        Wf(x) && Reaches(hOut, g.kh, g.stride, g.padding, x.shape[1]) &&
        Reaches(wOut, g.kw, g.stride, g.padding, x.shape[2]))) &&
    (kn >= 1 && g.kh >= 1 && g.kw >= 1 ==> kc <= x.shape[0] && kc <= kernels.shape[1])
  }

  /** `get` with the wrong number of indices throws: the loops read the gradient
      `delta_O.get(k, h, w)` as soon as there is a kernel and an output position, and
      the cached input `input_tensor.get(c, in_h, in_w)` in the `delta_F` loop when
      there is also an input channel and a kernel cell. */
  predicate ArityFails(x: Tensor, d: Tensor, kn: int, hOut: int, wOut: int, g: Geometry)
  {
    kn >= 1 && hOut >= 1 && wOut >= 1 &&
    (|d.shape| != 3 || (|x.shape| != 3 && |x.shape| >= 1 && x.shape[0] >= 1 && g.kh >= 1 && g.kw >= 1))
  }

  /** The input gradient of shape [c, h, w]: each cell holds the LAST kernel product
      written to it (LastWrite), not the sum of the products that cover it. */
  ghost predicate SpreadBack(deltaI: Tensor, gated: Tensor, k0: Tensor, kn: int, hOut: int, wOut: int, g: Geometry)
    requires |deltaI.shape| == 3
  {
    forall c, y, z :: 0 <= c < deltaI.shape[0] && 0 <= y < deltaI.shape[1] && 0 <= z < deltaI.shape[2] ==>
      Get3(deltaI, c, y, z) == LastWrite(Cells(gated), Cells4(k0), kn, c, hOut, wOut, y, z, g)
  }

  /** Bias k < kn moves by -lr · (sum of plane k of the gated gradient); no other changes. */
  ghost predicate BiasesStepped(b0: Tensor, b1: Tensor, gated: Tensor, kn: int, hOut: int, wOut: int, lr: real)
  {
    forall k :: Get1(b1, k) == if 0 <= k < kn
      then Descended(Get1(b0, k), Total(Cells(gated), k, hOut, wOut), lr)
      else Get1(b0, k)
  }

  /** Channel b < kc of kernel a < kn moves by -lr · Gradient; every other weight stays. */
  ghost predicate KernelsStepped(k0: Tensor, k1: Tensor, x: Tensor, gated: Tensor, kn: int, kc: int, hOut: int, wOut: int,
                                 lr: real, g: Geometry)
  {
    forall a, b, y, z :: Get4(k1, a, b, y, z) == if 0 <= a < kn && 0 <= b < kc && 0 <= y < g.kh && 0 <= z < g.kw
      then Descended(Get4(k0, a, b, y, z), Gradient(Cells(x), Cells(gated), a, b, y, z, hOut, wOut, g), lr)
      else Get4(k0, a, b, y, z)
  }

  /** `delta_I` for an output of hOut × wOut positions (none when either is below 1). */
  method SpreadInput(gated: Tensor, kernels: Tensor, cIn: nat, hIn: int, wIn: int, kn: nat, hOut: int, wOut: int, g: Geometry)
    returns (deltaI: Tensor)
    requires cIn * (hIn * wIn) >= 0
    requires cIn >= 1 && kn >= 1 && g.kh >= 1 && g.kw >= 1 && hOut >= 1 && wOut >= 1 ==>
      hOut - 1 + g.kh <= hIn && wOut - 1 + g.kw <= wIn
    ensures Wf(deltaI) && deltaI.shape == [cIn, hIn, wIn]
    ensures SpreadBack(deltaI, gated, kernels, kn, hOut, wOut, g)
  {
    var hRows: nat := if hOut >= 1 then hOut else 0;
    var wCols: nat := if wOut >= 1 then wOut else 0;
    deltaI := InputGradient(gated, kernels, cIn, hIn, wIn, kn, hRows, wCols, g);
  }

  /** `delta_B` and `delta_F` for an output of hOut × wOut positions (none when
      either is below 1). */
  method Gradients(x: Tensor, gated: Tensor, kn: nat, cIn: nat, hOut: int, wOut: int, g: Geometry)
    returns (dB: seq<real>, dF: seq<Volume>)
    ensures |dB| == kn && forall k :: 0 <= k < kn ==> dB[k] == Total(Cells(gated), k, hOut, wOut)
    ensures forall k, c, y, z :: 0 <= k < kn && 0 <= c < cIn && 0 <= y < g.kh && 0 <= z < g.kw ==>
      Read4(dF, k, c, y, z) == Gradient(Cells(x), Cells(gated), k, c, y, z, hOut, wOut, g)
  {
    var hRows: nat := if hOut >= 1 then hOut else 0;
    var wCols: nat := if wOut >= 1 then wOut else 0;
    dB, dF := ParameterGradients(x, gated, kn, cIn, hRows, wCols, g);
    ClippedSums(Cells(x), Cells(gated), hOut, wOut, hRows, wCols, g);
  }

  /** `delta_B`, `delta_F` and the optimiser step. */
  method Train(x: Tensor, kernels: Tensor, biases: Tensor, gated: Tensor, kn: nat, kc: nat, cIn: nat,
               hOut: int, wOut: int, lr: real, g: Geometry)
    returns (newKernels: Tensor, newBiases: Tensor)
    requires Parameters(kernels, biases, kn, g)
    requires kn >= 1 && g.kh >= 1 && g.kw >= 1 ==> kc <= cIn && kc <= kernels.shape[1]
    ensures Parameters(newKernels, newBiases, kn, g) && newKernels.shape == kernels.shape
    ensures BiasesStepped(biases, newBiases, gated, kn, hOut, wOut, lr)
    ensures KernelsStepped(kernels, newKernels, x, gated, kn, kc, hOut, wOut, lr, g)
  {
    var dB, dF := Gradients(x, gated, kn, cIn, hOut, wOut, g);
    newKernels, newBiases := Descend(kernels, biases, dB, dF, kn, kc, lr, g);
  }


  /** The success path of `backward` on an input of size [cIn, hIn, wIn]: the input
      gradient, then both parameter gradients and the optimiser step. */
  method Step(x: Tensor, kernels: Tensor, biases: Tensor, gated: Tensor, kn: nat, kc: nat, cIn: nat, hIn: int, wIn: int,
              hOut: int, wOut: int, lr: real, g: Geometry)
    returns (deltaI: Tensor, newKernels: Tensor, newBiases: Tensor)
    requires Parameters(kernels, biases, kn, g)
    requires |x.shape| >= 3 && x.shape[..3] == [cIn, hIn, wIn] && Product(x.shape[..3]) >= 0
    requires BackwardFits(x, kernels, gated, kn, kc, hOut, wOut, g) && !ArityFails(x, gated, kn, hOut, wOut, g)
    ensures Parameters(newKernels, newBiases, kn, g) && newKernels.shape == kernels.shape
    ensures Wf(deltaI) && deltaI.shape == [cIn, hIn, wIn]
    ensures SpreadBack(deltaI, gated, kernels, kn, hOut, wOut, g)
    ensures BiasesStepped(biases, newBiases, gated, kn, hOut, wOut, lr)
    ensures KernelsStepped(kernels, newKernels, x, gated, kn, kc, hOut, wOut, lr, g)
  {
    Product3(cIn, hIn, wIn);
    deltaI := SpreadInput(gated, kernels, cIn, hIn, wIn, kn, hOut, wOut, g);
    newKernels, newBiases := Train(x, kernels, biases, gated, kn, kc, cIn, hOut, wOut, lr, g);
  }

  /** The contract of `backward` on values: x is the cached input, k0 and b0 the
      parameters before the call, r, gated, k1 and b1 what the call leaves. */
  ghost predicate Learned(x: Tensor, k0: Tensor, b0: Tensor, deltaO: Tensor, kn: int, kc: int, hOut: int, wOut: int,
                          lr: real, g: Geometry, r: Result<Tensor>, gated: Tensor, k1: Tensor, b1: Tensor)
  {
    (|x.shape| < 3 ==> r == Err(IndexOutOfBounds) && gated == deltaO && k1 == k0 && b1 == b0) &&
    (|x.shape| >= 3 && (Product(x.shape[..3]) < 0 || x.shape[0] < 0) ==>
      r == Err(NegativeSize) && gated == deltaO && k1 == k0 && b1 == b0) &&
    (|x.shape| >= 3 && Product(x.shape[..3]) >= 0 && x.shape[0] >= 0 ==>
      gated == Gated(deltaO) &&
      (ArityFails(x, gated, kn, hOut, wOut, g) ==> r == Err(IndexArity) && k1 == k0 && b1 == b0) &&
      (!ArityFails(x, gated, kn, hOut, wOut, g) ==>
        r.Ok? && Wf(r.value) && r.value.shape == x.shape[..3] &&
        SpreadBack(r.value, gated, k0, kn, hOut, wOut, g) &&
        BiasesStepped(b0, b1, gated, kn, hOut, wOut, lr) &&
        KernelsStepped(k0, k1, x, gated, kn, kc, hOut, wOut, lr, g)))
  }

  /** At learning rate 0 `backward` moves no parameter: whichever path it takes, every
      bias and every kernel weight reads as it did before the call. */
  lemma ZeroRateKeepsParameters(x: Tensor, k0: Tensor, b0: Tensor, deltaO: Tensor, kn: int, kc: int, hOut: int,
                                wOut: int, g: Geometry, r: Result<Tensor>, gated: Tensor, k1: Tensor, b1: Tensor)
    requires Learned(x, k0, b0, deltaO, kn, kc, hOut, wOut, 0.0, g, r, gated, k1, b1)
    ensures forall k :: Get1(b1, k) == Get1(b0, k)
    ensures forall a, b, y, z :: Get4(k1, a, b, y, z) == Get4(k0, a, b, y, z)
  {
  }

  /** `backward` on values, from the cached input x: a rank below 3 fails at
      `shape()[1]` or `shape()[2]`, a negative size at the allocations, and neither
      touches the gradient or a parameter. Otherwise the caller's gradient is gated
      in place (`gated`); a `get` with the wrong number of indices (ArityFails) then
      throws before any parameter moves. Otherwise the returned input gradient holds in each cell the LAST
      product written to it (LastWrite), every bias moves by -lr · (sum of its gated
      plane) and the first kc channels of every kernel by -lr · Gradient, all from
      the parameters as they were before the step. */
  method Learn(x: Tensor, kernels: Tensor, biases: Tensor, deltaO: Tensor, kn: nat, kc: nat, hOut: int, wOut: int,
               lr: real, g: Geometry)
    returns (r: Result<Tensor>, gated: Tensor, newKernels: Tensor, newBiases: Tensor)
    requires Parameters(kernels, biases, kn, g)
    requires |x.shape| >= 3 ==> BackwardFits(x, kernels, Gated(deltaO), kn, kc, hOut, wOut, g)
    ensures Parameters(newKernels, newBiases, kn, g) && newKernels.shape == kernels.shape
    ensures Learned(x, kernels, biases, deltaO, kn, kc, hOut, wOut, lr, g, r, gated, newKernels, newBiases)
  {
    gated, newKernels, newBiases := deltaO, kernels, biases;
    if |x.shape| < 3 {
      return Err(IndexOutOfBounds), gated, newKernels, newBiases;
    }
    var cIn, hIn, wIn := x.shape[0], x.shape[1], x.shape[2];
    if Product(x.shape[..3]) < 0 || cIn < 0 {
      return Err(NegativeSize), gated, newKernels, newBiases;
    }
    gated := Gated(deltaO);
    if ArityFails(x, gated, kn, hOut, wOut, g) {
      return Err(IndexArity), gated, newKernels, newBiases;
    }
    var deltaI;
    assert x.shape[..3] == [cIn, hIn, wIn];
    deltaI, newKernels, newBiases := Step(x, kernels, biases, gated, kn, kc, cIn, hIn, wIn, hOut, wOut, lr, g);
    r := Ok(deltaI);
  }

  /** What `forward` returns for an input and the layer's parameters: the errors in the
      order Java raises them, then every output cell (k, oy, ox) the Response of the
      first kc input channels. */
  ghost predicate Emitted(input: Tensor, kernels: Tensor, biases: Tensor, kn: int, kc: int, g: Geometry, r: Result<Tensor>)
  {
    (|input.shape| < 2 ==> r == Err(IndexOutOfBounds)) &&
    (|input.shape| >= 2 && g.stride == 0 ==> r == Err(DivisionByZero)) &&
    (|input.shape| == 2 && g.stride != 0 ==> r == Err(IndexOutOfBounds)) &&
    (|input.shape| >= 3 && g.stride != 0 ==>
      var hOut := JavaInt.OutputSize(input.shape[1], g.kh, g.padding, g.stride);
      var wOut := JavaInt.OutputSize(input.shape[2], g.kw, g.padding, g.stride);
      (r.Err? <==> hOut < 1 || wOut < 1 || kn < 1) &&
      (r.Err? ==> r == Err(InvalidDimensions)) &&
      (r.Ok? ==> (Wf(r.value) && r.value.shape == [kn, hOut, wOut] &&
        forall k, oy, ox :: 0 <= k < kn && 0 <= oy < hOut && 0 <= ox < wOut ==>
          Get3(r.value, k, oy, ox) == Response(Cells(input), Cells4(kernels), Get1(biases, k), k, kc, oy, ox, g))))
  }

  /** The layer (src/layers/Conv.java). Tensors are held as values, so a tensor the
      layer keeps is never changed by its caller afterwards. */
  class Conv {
    var kernelNum: nat
    var kernelChannels: nat
    var kernelHeight: nat
    var kernelWidth: nat
    var kernels: Tensor
    var biases: Tensor
    var outputHeight: int
    var outputWidth: int
    var stride: int
    var padding: int
    var inputTensor: Tensor

    /** Kernel size, stride and padding as the index arithmetic uses them. */
    function Frame(): Geometry
      reads this
    {
      Geometry(kernelHeight, kernelWidth, stride, padding)
    }

    /** Kernels [kernelNum, channels, kernelHeight, kernelWidth] and biases [kernelNum]. */
    predicate Valid()
      reads this
    {
      Parameters(kernels, biases, kernelNum, Frame())
    }

    /** Stride 1, padding 0, output size 0, an empty cached input, zero biases, and
        kernels of arbitrary value. kernelChannels is never assigned and stays 0. */
    constructor (kernelNum: nat, channels: nat, kernelHeight: nat, kernelWidth: nat)
      ensures Valid()
      ensures this.kernelNum == kernelNum && this.kernelHeight == kernelHeight && this.kernelWidth == kernelWidth
      ensures kernelChannels == 0 && stride == 1 && padding == 0 && outputHeight == 0 && outputWidth == 0
      ensures inputTensor == ZeroVolume(0, 0, 0)
      ensures kernels.shape == [kernelNum, channels, kernelHeight, kernelWidth]
      ensures forall k :: Get1(biases, k) == 0.0
    {
      this.kernelNum := kernelNum;
      this.kernelWidth := kernelWidth;
      this.kernelHeight := kernelHeight;
      kernelChannels := 0;
      stride := 1;
      padding := 0;
      outputHeight := 0;
      outputWidth := 0;
      inputTensor := ZeroVolume(0, 0, 0);
      ProductNonNegative([kernelNum, channels, kernelHeight, kernelWidth]);
      kernels := Zeros([kernelNum, channels, kernelHeight, kernelWidth]);
      Product1(kernelNum);
      biases := Zeros([kernelNum]);
      new;
      Init();
    }

    /** `init`: `init_he(kernelChannels · kernelHeight · kernelWidth)` gives every
        kernel cell a new arbitrary value (the scale is sqrt(2 / 0)); the biases
        become zero. */
    method Init()
      requires Valid()
      modifies this
      ensures Valid() && kernels.shape == old(kernels.shape)
      ensures forall k :: Get1(biases, k) == 0.0
      ensures kernelNum == old(kernelNum) && kernelChannels == old(kernelChannels)
      ensures kernelHeight == old(kernelHeight) && kernelWidth == old(kernelWidth)
      ensures stride == old(stride) && padding == old(padding)
      ensures outputHeight == old(outputHeight) && outputWidth == old(outputWidth)
      ensures inputTensor == old(inputTensor)
    {
      assert |seq(|kernels.data|, _ => 0.0)| == |kernels.data|;
      var cells: seq<real> :| |cells| == |kernels.data|;
      kernels := Tensor(kernels.shape, cells);
      Product1(kernelNum);
      biases := Zeros([kernelNum]);
      assert forall k :: Get1(biases, k) == 0.0 by {
        forall k | 0 <= k < kernelNum
          ensures Get1(biases, k) == 0.0
        {
          assert InRange(biases.shape, [k]);
          OffsetBounds(biases.shape, [k]);
        }
      }
    }

    /** `forward`: caches the input, then computes the output size, failing as Java
        does: a rank below 2 at `shape()[1]`, a zero stride at the division, a rank
        below 3 at `shape()[2]` (the height already stored), and an output or kernel
        count below 1. Otherwise every output cell (k, oy, ox) is the Response of the
        first kernelChannels input channels, which is the value the LAST channel wrote. */
    method Forward(input: Tensor) returns (r: Result<Tensor>)
      requires Valid()
      requires |input.shape| >= 3 && stride != 0 ==>
        ForwardFits(input, kernels, kernelNum, kernelChannels,
          JavaInt.OutputSize(input.shape[1], kernelHeight, padding, stride),
          JavaInt.OutputSize(input.shape[2], kernelWidth, padding, stride), Frame())
      modifies this
      ensures Valid() && inputTensor == input
      ensures kernels == old(kernels) && biases == old(biases) && kernelNum == old(kernelNum)
      ensures kernelChannels == old(kernelChannels) && kernelHeight == old(kernelHeight)
      ensures kernelWidth == old(kernelWidth) && stride == old(stride) && padding == old(padding)
      ensures |input.shape| < 2 || stride == 0 ==> outputHeight == old(outputHeight)
      ensures |input.shape| < 3 || stride == 0 ==> outputWidth == old(outputWidth)
      ensures |input.shape| < 2 ==> r == Err(IndexOutOfBounds)
      ensures |input.shape| >= 2 && stride == 0 ==> r == Err(DivisionByZero)
      ensures |input.shape| >= 2 && stride != 0 ==>
        outputHeight == JavaInt.OutputSize(input.shape[1], kernelHeight, padding, stride)
      ensures |input.shape| == 2 && stride != 0 ==> r == Err(IndexOutOfBounds)
      ensures |input.shape| >= 3 && stride != 0 ==>
        outputWidth == JavaInt.OutputSize(input.shape[2], kernelWidth, padding, stride) &&
        (r.Err? <==> outputHeight < 1 || outputWidth < 1 || kernelNum < 1) &&
        (r.Err? ==> r == Err(InvalidDimensions))
      ensures r.Ok? ==> Wf(r.value) && r.value.shape == [kernelNum, outputHeight, outputWidth]
      ensures r.Ok? ==> forall k, oy, ox :: 0 <= k < kernelNum && 0 <= oy < outputHeight && 0 <= ox < outputWidth ==>
        Get3(r.value, k, oy, ox) == Response(Cells(input), Cells4(kernels), Get1(biases, k), k, kernelChannels, oy, ox, Frame())
      ensures Emitted(input, kernels, biases, kernelNum, kernelChannels, Frame(), r)
    {
      inputTensor := input;
      if |input.shape| < 2 {
        return Err(IndexOutOfBounds);
      }
      if stride == 0 {
        return Err(DivisionByZero);
      }
      outputHeight := JavaInt.OutputSize(input.shape[1], kernelHeight, padding, stride);
      if |input.shape| < 3 {
        return Err(IndexOutOfBounds);
      }
      outputWidth := JavaInt.OutputSize(input.shape[2], kernelWidth, padding, stride);
      var hOut := outputHeight;
      var wOut := outputWidth;
      if hOut < 1 || wOut < 1 || kernelNum < 1 {
        return Err(InvalidDimensions);
      }
      var output := Outputs(input, kernels, biases, kernelNum, kernelChannels, hOut, wOut, Frame());
      return Ok(output);
    }

    /** `backward`: Learn on the cached input and the current parameters; the
        parameters become Learn's, the cached input and the geometry stay. */
    method Backward(deltaO: Tensor, learningRate: real) returns (r: Result<Tensor>, gated: Tensor)
      requires Valid()
      requires |inputTensor.shape| >= 3 ==>
        BackwardFits(inputTensor, kernels, Gated(deltaO), kernelNum, kernelChannels, outputHeight, outputWidth, Frame())
      modifies this
      ensures Valid() && kernels.shape == old(kernels.shape)
      ensures kernelNum == old(kernelNum) && kernelChannels == old(kernelChannels)
      ensures kernelHeight == old(kernelHeight) && kernelWidth == old(kernelWidth)
      ensures stride == old(stride) && padding == old(padding) && inputTensor == old(inputTensor)
      ensures outputHeight == old(outputHeight) && outputWidth == old(outputWidth)
      ensures Learned(inputTensor, old(kernels), old(biases), deltaO, kernelNum, kernelChannels, outputHeight, outputWidth,
                      learningRate, Frame(), r, gated, kernels, biases)
    {
      r, gated, kernels, biases :=
        Learn(inputTensor, kernels, biases, deltaO, kernelNum, kernelChannels, outputHeight, outputWidth, learningRate, Frame());
    }

    method SetStride(stride: int)
      modifies this
      ensures this.stride == stride
      ensures kernels == old(kernels) && biases == old(biases) && padding == old(padding)
      ensures kernelNum == old(kernelNum) && kernelChannels == old(kernelChannels)
      ensures kernelHeight == old(kernelHeight) && kernelWidth == old(kernelWidth)
      ensures outputHeight == old(outputHeight) && outputWidth == old(outputWidth)
      ensures inputTensor == old(inputTensor)
    {
      this.stride := stride;
    }

    method SetPadding(padding: int)
      modifies this
      ensures this.padding == padding
      ensures kernels == old(kernels) && biases == old(biases) && stride == old(stride)
      ensures kernelNum == old(kernelNum) && kernelChannels == old(kernelChannels)
      ensures kernelHeight == old(kernelHeight) && kernelWidth == old(kernelWidth)
      ensures outputHeight == old(outputHeight) && outputWidth == old(outputWidth)
      ensures inputTensor == old(inputTensor)
    {
      this.padding := padding;
    }

    function GetStride(): int
      reads this
    {
      stride
    }

    function GetPadding(): int
      reads this
    {
      padding
    }
  }

  /** A freshly constructed layer reads no input channel (kernelChannels is 0), so a
      successful first `forward` returns an all-zero tensor whatever the input. */
  method ForwardAfterConstruction(kernelNum: nat, channels: nat, kernelHeight: nat, kernelWidth: nat, input: Tensor)
    returns (r: Result<Tensor>)
    ensures |input.shape| < 3 ==> r == Err(IndexOutOfBounds)
    ensures r.Ok? ==> forall k, oy, ox :: Get3(r.value, k, oy, ox) == 0.0
  {
    var layer := new Conv(kernelNum, channels, kernelHeight, kernelWidth);
    r := layer.Forward(input);
  }
}
