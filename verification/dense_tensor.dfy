/** The fully connected layer over `data.Tensor` values (src/layers/DenseTensor.java):
    forward is act(W·x + b), caching input and output; backward reads each weight
    for the propagated gradient BEFORE its own gradient-descent update. */
module DenseTensor {
  import opened Outcomes
  import opened Shapes
  import opened Tensors
  import Activation

  /** `t.get(i)` on a rank-1 tensor: cell i, or the exception `get` raises. */
  lemma LookupRank1(t: Tensor, i: int)
    requires |t.shape| == 1
    ensures Lookup(t.shape, 1, t.data, [i]) == if 0 <= i < |t.data| then Ok(t.data[i]) else Err(IndexOutOfBounds)
  {
    assert t.shape == [t.shape[0]];
    Offset1(t.shape[0], i);
    assert t.shape[..1] == t.shape && [i][..1] == [i];
  }

  /** A size × cols weight tensor and a size bias tensor, as the constructor makes them. */
  predicate Parameters(weights: Tensor, biases: Tensor, size: int, cols: int)
  {
    Wf(weights) && weights.shape == [size, cols] && Wf(biases) && biases.shape == [size]
  }

  /** `sum_weighted_input` after k steps: the sum of input[j]·W[n, j] for j < k. */
  function Dot(input: Tensor, weights: Tensor, n: int, k: int): real
    requires Wf(weights) && |weights.shape| == 2 && 0 <= n < weights.shape[0]
    requires 0 <= k <= weights.shape[1] && k <= |input.data|
    decreases k
  {
    if k == 0 then 0.0 else Dot(input, weights, n, k - 1) + input.data[k - 1] * At(weights, [n, k - 1])
  }

  /** Output neuron n: act(Σ_k input[k]·W[n, k] + b[n]). */
  function Neuron(weights: Tensor, biases: Tensor, act: real -> real, input: Tensor, size: nat, cols: nat, n: int): real
    requires Parameters(weights, biases, size, cols) && 0 <= n < size && cols <= |input.data|
  {
    act(Dot(input, weights, n, cols) + At(biases, [n]))
  }

  /** `forward` on the layer's parameters: the exception the first `input.get`
      raises (a rank other than 1, or fewer than cols cells), or the [size] tensor
      of neuron outputs. Nothing is read when size or cols is 0. */
  function Respond(weights: Tensor, biases: Tensor, act: real -> real, input: Tensor, size: nat, cols: nat): (r: Result<Tensor>)
    requires Parameters(weights, biases, size, cols)
    ensures r.Ok? ==> Wf(r.value) && r.value.shape == [size]
  {
    if size > 0 && cols > 0 && |input.shape| != 1 then Err(IndexArity)
    else if size > 0 && cols > 0 && |input.data| < cols then Err(IndexOutOfBounds)
    else Ok(Tensor([size], seq(size, n requires 0 <= n < size => Neuron(weights, biases, act, input, size, cols, n))))
  }

  /** `delta_I` of neurons 0 .. m-1: the incoming gradient times the activation
      derivative taken at the cached OUTPUT (not at the pre-activation sum). */
  function Gates(delta: Tensor, lastOutput: Tensor, deriv: real -> real, m: nat): (g: seq<real>)
    requires m <= |delta.data| && m <= |lastOutput.data|
    ensures |g| == m
  {
    seq(m, n requires 0 <= n < m => delta.data[n] * deriv(lastOutput.data[n]))
  }

  /** Whether flat cell j (row-major, cols per row) lies in a row below n, or in row n
      at a column below i. */
  predicate Before(j: int, cols: int, n: int, i: int)
    requires cols > 0
  {
    j / cols < n || (j / cols == n && j % cols < i)
  }

  /** The flat weight buffer once rows below n, and row n up to column i, received
      their update W - lr·(delta_I[row]·input[column]); rows at or past |g| keep
      their value. */
  function Trained(w0: seq<real>, g: seq<real>, x: seq<real>, lr: real, cols: int, n: int, i: int): (r: seq<real>)
    ensures |r| == |w0|
  {
    seq(|w0|, j requires 0 <= j < |w0| =>
      w0[j] + if cols > 0 && Before(j, cols, n, i) && j / cols < |g| && j % cols < |x|
              then lr * (g[j / cols] * x[j % cols]) * -1.0 else 0.0)
  }

  /** The bias buffer after neurons 0 .. |g|-1 received b - lr·delta_I[n]. */
  function TrainedBiases(b0: seq<real>, g: seq<real>, lr: real): (r: seq<real>)
    ensures |r| == |b0|
  {
    seq(|b0|, n requires 0 <= n < |b0| => b0[n] + if n < |g| then lr * g[n] * -1.0 else 0.0)
  }

  /** new_delta[i] after neurons 0 .. n-1: Σ delta_I[a]·W[a, i] over the weights
      as they were before the update. */
  function Backprop(w0: Tensor, g: seq<real>, i: int, n: int): real
    requires Wf(w0) && |w0.shape| == 2 && 0 <= i < w0.shape[1] && 0 <= n <= w0.shape[0] && n <= |g|
    decreases n
  {
    if n == 0 then 0.0 else Backprop(w0, g, i, n - 1) + g[n - 1] * At(w0, [n - 1, i])
  }

  /** new_delta after neurons 0 .. n-1: the transposed weights applied to their
      delta_I. */
  function Propagated(w0: Tensor, g: seq<real>, cols: nat, n: nat): (r: Tensor)
    requires Wf(w0) && |w0.shape| == 2 && w0.shape[1] == cols && n <= w0.shape[0] && n <= |g|
    ensures Wf(r) && r.shape == [cols]
  {
    Product1(cols);
    Tensor([cols], seq(cols, i requires 0 <= i < cols => Backprop(w0, g, i, n)))
  }

  /** new_delta part-way through neuron n: inputs below i already hold neuron n's term. */
  function PartlyPropagated(w0: Tensor, g: seq<real>, cols: nat, n: nat, i: nat): (r: Tensor)
    requires Wf(w0) && |w0.shape| == 2 && w0.shape[1] == cols && n < w0.shape[0] && n < |g|
    ensures Wf(r) && r.shape == [cols]
  {
    Product1(cols);
    Tensor([cols], seq(cols, c requires 0 <= c < cols => Backprop(w0, g, c, if c < i then n + 1 else n)))
  }

  /** One more input of neuron n: new_delta[i] gains v = delta_I·W[n, i]. */
  lemma PartlyStep(w0: Tensor, g: seq<real>, cols: nat, n: nat, i: nat, v: real)
    requires Wf(w0) && |w0.shape| == 2 && w0.shape[1] == cols && n < w0.shape[0] && n < |g| && i < cols
    requires v == g[n] * At(w0, [n, i])
    ensures var p := PartlyPropagated(w0, g, cols, n, i).data;
      PartlyPropagated(w0, g, cols, n, i + 1) == Tensor([cols], p[i := p[i] + v])
  {
    var p := PartlyPropagated(w0, g, cols, n, i).data;
    var q := PartlyPropagated(w0, g, cols, n, i + 1).data;
    forall c | 0 <= c < cols
      ensures q[c] == p[i := p[i] + v][c]
    {
      if c == i {
        assert q[c] == Backprop(w0, g, i, n + 1);
      } else {
        assert q[c] == p[c];
      }
    }
  }

  /** One iteration of the inner loop of `backward`: W[n, i] still holds its initial
      value when it is read; new_delta[i] gains delta_I·W[n, i] and W[n, i] moves by
      -lr·gradient, as the specification functions say. */
  lemma RowStep(w0: Tensor, g: seq<real>, x: seq<real>, lr: real, cols: nat, n: nat, i: nat, w: Tensor, nd: Tensor,
                 deltaI: real, gradient: real)
    requires Wf(w0) && |w0.shape| == 2 && w0.shape[1] == cols && n < w0.shape[0] && n < |g|
    requires i < cols && cols <= |x| && deltaI == g[n] && gradient == g[n] * x[i]
    requires w == Tensor(w0.shape, Trained(w0.data, g, x, lr, cols, n, i))
    requires nd == PartlyPropagated(w0, g, cols, n, i)
    ensures Wf(w) && InRange(w.shape, [n, i])
    ensures Wf(nd) && InRange(nd.shape, [i])
    ensures AddAt(nd, [i], deltaI * At(w, [n, i])) == PartlyPropagated(w0, g, cols, n, i + 1)
    ensures AddAt(w, [n, i], lr * gradient * -1.0) == Tensor(w0.shape, Trained(w0.data, g, x, lr, cols, n, i + 1))
  {
    assert w0.shape == [w0.shape[0], cols];
    var j := n * cols + i;
    Cell2(w0, n, i, 0.0);
    TrainedStep(w0.data, g, x, lr, cols, n, i, lr * gradient * -1.0);
    Cell2(w, n, i, lr * gradient * -1.0);
    var v := deltaI * At(w, [n, i]);
    PartlyStep(w0, g, cols, n, i, v);
    Cell1(nd, i, v);
  }

  /** The body of `backward` for neuron n, with delta_I = g[n]: each weight W[n, i]
      is first added into new_delta[i] (times delta_I), then moved by
      -lr·delta_I·lastInput[i]; last the bias b[n] moves by -lr·delta_I. */
  method TrainNeuron(ghost w0: Tensor, ghost b0: Tensor, weights: Tensor, biases: Tensor, newDelta: Tensor,
                     ghost g: seq<real>, lastInput: Tensor, lr: real, deltaI: real, n: nat, cols: nat)
    returns (nd: Tensor, w: Tensor, b: Tensor)
    requires Wf(w0) && |w0.shape| == 2 && w0.shape[1] == cols && n < w0.shape[0] && n < |g|
    requires Wf(b0) && b0.shape == [w0.shape[0]]
    requires deltaI == g[n]
    requires cols > 0 ==> |lastInput.shape| == 1 && cols <= |lastInput.data|
    requires weights == Tensor(w0.shape, Trained(w0.data, g, lastInput.data, lr, cols, n, 0))
    requires biases == Tensor(b0.shape, TrainedBiases(b0.data, g[..n], lr))
    requires newDelta == Propagated(w0, g, cols, n)
    ensures w == Tensor(w0.shape, Trained(w0.data, g, lastInput.data, lr, cols, n + 1, 0))
    ensures b == Tensor(b0.shape, TrainedBiases(b0.data, g[..n + 1], lr))
    ensures nd == Propagated(w0, g, cols, n + 1)
  {
    nd, w := newDelta, weights;
    assert nd == PartlyPropagated(w0, g, cols, n, 0);
    for i := 0 to cols
      invariant w == Tensor(w0.shape, Trained(w0.data, g, lastInput.data, lr, cols, n, i))
      invariant nd == PartlyPropagated(w0, g, cols, n, i)
    {
      LookupRank1(lastInput, i);
      var x := Lookup(lastInput.shape, |lastInput.shape|, lastInput.data, [i]);
      var gradient := deltaI * x.value;
      RowStep(w0, g, lastInput.data, lr, cols, n, i, w, nd, deltaI, gradient);
      nd := AddAt(nd, [i], deltaI * At(w, [n, i]));
      w := AddAt(w, [n, i], lr * gradient * -1.0);
    }
    assert nd == Propagated(w0, g, cols, n + 1);
    if cols > 0 {
      RowDone(w0.data, g, lastInput.data, lr, cols, n);
    }
    Product1(w0.shape[0]);
    Cell1(biases, n, lr * deltaI * -1.0);
    BiasStep(b0.data, g, lr, n, deltaI);
    b := AddAt(biases, [n], lr * deltaI * -1.0);
  }

  /** The inner loop of `forward` for neuron n: Σ_k input.get(k)·W[n, k], or the
      exception the first failing `input.get` raises. */
  method WeightedInput(input: Tensor, weights: Tensor, n: nat, cols: nat) returns (r: Result<real>)
    requires Wf(weights) && |weights.shape| == 2 && weights.shape[1] == cols && n < weights.shape[0]
    ensures r == if cols > 0 && |input.shape| != 1 then Err(IndexArity)
                 else if |input.data| < cols then Err(IndexOutOfBounds)
                 else Ok(Dot(input, weights, n, cols))
  {
    var sum := 0.0;
    for k := 0 to cols
      invariant k > 0 ==> |input.shape| == 1
      invariant k <= |input.data| && sum == Dot(input, weights, n, k)
    {
      if |input.shape| == 1 {
        LookupRank1(input, k);
      }
      var x := Lookup(input.shape, |input.shape|, input.data, [k]);
      if x.Err? {
        return Err(x.error);
      }
      assert weights.shape == [weights.shape[0], cols];
      sum := sum + x.value * At(weights, [n, k]);
    }
    return Ok(sum);
  }

  /** The neurons `backward` completes before it stops: all of them, none when the
      gradient's rank is not 1, or as many as the gradient has cells. */
  function Completed(delta: Tensor, size: nat): (m: nat)
    ensures m <= size && (m > 0 ==> m <= |delta.data|)
  {
    if |delta.shape| != 1 then 0 else if |delta.data| < size then |delta.data| else size
  }

  /** Cell (n, i) of a rank-2 tensor sits at n·cols + i; `inc` there changes that cell only. */
  lemma Cell2(t: Tensor, n: int, i: int, v: real)
    requires Wf(t) && |t.shape| == 2 && InRange(t.shape, [n, i])
    ensures 0 <= n * t.shape[1] + i < |t.data|
    ensures At(t, [n, i]) == t.data[n * t.shape[1] + i]
    ensures AddAt(t, [n, i], v) == Tensor(t.shape, t.data[n * t.shape[1] + i := t.data[n * t.shape[1] + i] + v])
  {
    assert t.shape == [t.shape[0], t.shape[1]];
    Offset2(t.shape[0], t.shape[1], n, i);
    OffsetBounds(t.shape, [n, i]);
    var k := n * t.shape[1] + i;
    assert Offset(t.shape, [n, i]) == k;
    assert At(t, [n, i]) == t.data[k];
    assert Put(t, [n, i], t.data[k] + v) == Tensor(t.shape, t.data[k := t.data[k] + v]);
  }

  /** Cell i of a rank-1 tensor sits at i; `inc` there changes that cell only. */
  lemma Cell1(t: Tensor, i: int, v: real)
    requires Wf(t) && |t.shape| == 1 && InRange(t.shape, [i])
    ensures 0 <= i < |t.data| && At(t, [i]) == t.data[i]
    ensures AddAt(t, [i], v) == Tensor(t.shape, t.data[i := t.data[i] + v])
  {
    assert t.shape == [t.shape[0]];
    Offset1(t.shape[0], i);
    OffsetBounds(t.shape, [i]);
    assert Offset(t.shape, [i]) == i;
    assert At(t, [i]) == t.data[i];
    assert Put(t, [i], t.data[i] + v) == Tensor(t.shape, t.data[i := t.data[i] + v]);
  }

  /** One more weight updated: cell n·cols + i moves from its initial value by
      v = -lr·g[n]·x[i], and no other cell changes. */
  lemma TrainedStep(w0: seq<real>, g: seq<real>, x: seq<real>, lr: real, cols: int, n: int, i: int, v: real)
    requires 0 <= i < cols && 0 <= n < |g| && i < |x| && n * cols + i < |w0|
    requires v == lr * (g[n] * x[i]) * -1.0
    ensures var j := n * cols + i;
      && Trained(w0, g, x, lr, cols, n, i)[j] == w0[j]
      && Trained(w0, g, x, lr, cols, n, i + 1) == Trained(w0, g, x, lr, cols, n, i)[j := w0[j] + v]
  {
    var j := n * cols + i;
    var a := Trained(w0, g, x, lr, cols, n, i);
    var b := Trained(w0, g, x, lr, cols, n, i + 1);
    DivModOf(n, i, cols);
    forall k | 0 <= k < |w0|
      ensures b[k] == a[j := w0[j] + v][k]
    {
      if k == j {
        assert k / cols == n && k % cols == i;
      } else {
        assert Before(k, cols, n, i + 1) == Before(k, cols, n, i);
      }
    }
  }

  /** A row finished is the next row not yet started. */
  lemma RowDone(w0: seq<real>, g: seq<real>, x: seq<real>, lr: real, cols: int, n: int)
    requires cols > 0
    ensures Trained(w0, g, x, lr, cols, n, cols) == Trained(w0, g, x, lr, cols, n + 1, 0)
  {
    forall k | 0 <= k < |w0|
      ensures Before(k, cols, n, cols) == Before(k, cols, n + 1, 0)
    {
    }
  }

  /** One more bias updated: cell n moves from its initial value by -lr·delta_I, where
      delta_I = g[n]. */
  lemma BiasStep(b0: seq<real>, g: seq<real>, lr: real, n: int, deltaI: real)
    requires 0 <= n < |g| && n < |b0| && deltaI == g[n]
    ensures TrainedBiases(b0, g[..n], lr)[n] == b0[n]
    ensures TrainedBiases(b0, g[..n + 1], lr) == TrainedBiases(b0, g[..n], lr)[n := b0[n] + lr * deltaI * -1.0]
  {
    var v := lr * deltaI * -1.0;
    var a := TrainedBiases(b0, g[..n], lr);
    var b := TrainedBiases(b0, g[..n + 1], lr);
    forall k | 0 <= k < |b0|
      ensures b[k] == a[n := b0[n] + v][k]
    {
      if k < n {
        assert g[..n + 1][k] == g[..n][k] == g[k];
      }
    }
  }

  /** Cell (n, i) of the trained weights: the update hits exactly the rows of the
      completed neurons, each weight moving by -lr·delta_I[n]·input[i]. */
  lemma TrainedCell(w0: Tensor, g: seq<real>, x: seq<real>, lr: real, n: int, i: int)
    requires Wf(w0) && |w0.shape| == 2 && InRange(w0.shape, [n, i])
    requires |g| <= w0.shape[0] && w0.shape[1] <= |x|
    ensures var t := Tensor(w0.shape, Trained(w0.data, g, x, lr, w0.shape[1], |g|, 0));
      Wf(t) && At(t, [n, i]) == At(w0, [n, i]) + if n < |g| then lr * (g[n] * x[i]) * -1.0 else 0.0
  {
    var cols := w0.shape[1];
    assert w0.shape == [w0.shape[0], cols];
    Offset2(w0.shape[0], cols, n, i);
    OffsetBounds(w0.shape, [n, i]);
    DivModOf(n, i, cols);
  }

  /** With learning rate 0 `backward` changes no weight and no bias. */
  lemma ZeroRateKeepsParameters(w0: seq<real>, b0: seq<real>, g: seq<real>, x: seq<real>, cols: int, n: int)
    ensures Trained(w0, g, x, 0.0, cols, n, 0) == w0
    ensures TrainedBiases(b0, g, 0.0) == b0
  {
  }

  /** The identity-activation example: W = [[1, 2, 3], [-1, 0.5, 2]], b = [0.1, -0.2]
      and x = [0.5, -1, 2] give [4.6, 2.8]. */
  lemma ForwardExample()
    ensures Respond(Tensor([2, 3], [1.0, 2.0, 3.0, -1.0, 0.5, 2.0]), Tensor([2], [0.1, -0.2]),
                    x => x, Tensor([3], [0.5, -1.0, 2.0]), 2, 3)
         == Ok(Tensor([2], [4.6, 2.8]))
  {
    var w := Tensor([2, 3], [1.0, 2.0, 3.0, -1.0, 0.5, 2.0]);
    var b := Tensor([2], [0.1, -0.2]);
    var x := Tensor([3], [0.5, -1.0, 2.0]);
    Product2(2, 3);
    Product1(2);
    forall n, k | 0 <= n < 2 && 0 <= k < 3
      ensures At(w, [n, k]) == w.data[n * 3 + k]
    {
      Offset2(2, 3, n, k);
    }
    forall n | 0 <= n < 2
      ensures At(b, [n]) == b.data[n]
    {
      Offset1(2, n);
    }
    var r := Respond(w, b, x => x, x, 2, 3);
    assert Neuron(w, b, x => x, x, 2, 3, 0) == 4.6;
    assert Neuron(w, b, x => x, x, 2, 3, 1) == 2.8;
    assert r.value.data == [4.6, 2.8];
  }

  /** The ReLU example: pre-activations 1, -3 and -1 give [1, 0, 0]. */
  lemma ForwardReluExample()
    ensures Respond(Tensor([3, 2], [2.0, 1.0, -3.0, -2.0, 0.5, -1.5]), Tensor([3], [-1.0, 0.5, 0.25]),
                    Activation.Relu, Tensor([2], [0.5, 1.0]), 3, 2)
         == Ok(Tensor([3], [1.0, 0.0, 0.0]))
  {
    var w := Tensor([3, 2], [2.0, 1.0, -3.0, -2.0, 0.5, -1.5]);
    var b := Tensor([3], [-1.0, 0.5, 0.25]);
    var x := Tensor([2], [0.5, 1.0]);
    Product2(3, 2);
    Product1(3);
    forall n, k | 0 <= n < 3 && 0 <= k < 2
      ensures At(w, [n, k]) == w.data[n * 2 + k]
    {
      Offset2(3, 2, n, k);
    }
    forall n | 0 <= n < 3
      ensures At(b, [n]) == b.data[n]
    {
      Offset1(3, n);
    }
    var r := Respond(w, b, Activation.Relu, x, 3, 2);
    assert Neuron(w, b, Activation.Relu, x, 3, 2, 0) == 1.0;
    assert Neuron(w, b, Activation.Relu, x, 3, 2, 1) == 0.0;
    assert Neuron(w, b, Activation.Relu, x, 3, 2, 2) == 0.0;
    assert r.value.data == [1.0, 0.0, 0.0];
  }

  /** The identity-activation backward example: with cached input [0.5, -1, 2],
      gradient [0.2, -0.4] and lr 0.1, the returned gradient is [0.6, 0.2, -0.2],
      the weights become [[0.99, 2.02, 2.96], [-0.98, 0.46, 2.08]] and the biases
      [0.08, -0.16]. */
  lemma BackwardExample()
    ensures var w0 := Tensor([2, 3], [1.0, 2.0, 3.0, -1.0, 0.5, 2.0]);
      var g := Gates(Tensor([2], [0.2, -0.4]), Tensor([2], [4.6, 2.8]), y => 1.0, 2);
      && Propagated(w0, g, 3, 2) == Tensor([3], [0.6, 0.2, -0.2])
      && Trained(w0.data, g, [0.5, -1.0, 2.0], 0.1, 3, 2, 0) == [0.99, 2.02, 2.96, -0.98, 0.46, 2.08]
      && TrainedBiases([0.1, -0.2], g, 0.1) == [0.08, -0.16]
  {
    var w0 := Tensor([2, 3], [1.0, 2.0, 3.0, -1.0, 0.5, 2.0]);
    var g := Gates(Tensor([2], [0.2, -0.4]), Tensor([2], [4.6, 2.8]), y => 1.0, 2);
    assert g == [0.2, -0.4];
    Product2(2, 3);
    forall n, k | 0 <= n < 2 && 0 <= k < 3
      ensures At(w0, [n, k]) == w0.data[n * 3 + k]
    {
      Offset2(2, 3, n, k);
    }
    assert Propagated(w0, g, 3, 2).data == [0.6, 0.2, -0.2];
    var t := Trained(w0.data, g, [0.5, -1.0, 2.0], 0.1, 3, 2, 0);
    assert t[0] == 0.99 && t[1] == 2.02 && t[2] == 2.96;
    assert t[3] == -0.98 && t[4] == 0.46 && t[5] == 2.08;
  }

  /** The contract of `backward` on values: w0 and b0 are the parameters before the
      call, w1 and b1 after it, x and y the cached input and output. */
  ghost predicate Learned(w0: Tensor, b0: Tensor, w1: Tensor, b1: Tensor, x: Tensor, y: Tensor, deriv: real -> real,
                          size: nat, cols: nat, delta: Tensor, lr: real, r: Result<Tensor>)
  {
    Parameters(w0, b0, size, cols) && |y.data| == size &&
    var m := Completed(delta, size);
    var g := Gates(delta, y, deriv, m);
    && w1 == Tensor(w0.shape, Trained(w0.data, g, x.data, lr, cols, m, 0))
    && b1 == Tensor(b0.shape, TrainedBiases(b0.data, g, lr))
    && r == if size > 0 && |delta.shape| != 1 then Err(IndexArity)
            else if m < size then Err(IndexOutOfBounds)
            else Ok(Propagated(w0, g, cols, size))
  }

  /** One neuron's delta_I: the gradient cell times the derivative at the cached
      output, or the error `delta_O.get(neuron)` raises. */
  method NeuronDelta(delta: Tensor, y: Tensor, deriv: real -> real, size: nat, neuron: nat) returns (d: Result<real>)
    requires Wf(y) && y.shape == [size] && |y.data| == size && neuron < size
    ensures d.Ok? <==> neuron < Completed(delta, size)
    ensures d.Err? ==> d.error == if |delta.shape| != 1 then IndexArity else IndexOutOfBounds
    ensures d.Ok? ==> d.value == delta.data[neuron] * deriv(y.data[neuron])
  {
    LookupRank1(y, neuron);
    var out := Lookup(y.shape, |y.shape|, y.data, [neuron]);
    var derivativeValue := deriv(out.value);
    if |delta.shape| == 1 {
      LookupRank1(delta, neuron);
    }
    var cell := Lookup(delta.shape, |delta.shape|, delta.data, [neuron]);
    if cell.Err? {
      return Err(cell.error);
    }
    return Ok(cell.value * derivativeValue);
  }

  /** `backward` on values, over the weights w0, the biases b0, the cached input x
      and the cached output y: for each neuron n in order, delta_I =
      delta[n]·deriv(y[n]); every weight W[n, i] is read into new_delta BEFORE it is
      moved by -lr·delta_I·x[i]; then the bias moves by -lr·delta_I. A gradient of
      rank other than 1 fails at once; one with fewer cells than neurons fails at
      the first missing cell, after the earlier neurons were already updated. */
  method Learn(w0: Tensor, b0: Tensor, x: Tensor, y: Tensor, deriv: real -> real, size: nat, cols: nat,
               delta: Tensor, lr: real)
    returns (w: Tensor, b: Tensor, r: Result<Tensor>)
    requires Parameters(w0, b0, size, cols)
    requires Wf(y) && y.shape == [size] && |y.data| == size
    requires size > 0 && cols > 0 ==> |x.shape| == 1 && cols <= |x.data|
    ensures Parameters(w, b, size, cols)
    ensures Learned(w0, b0, w, b, x, y, deriv, size, cols, delta, lr, r)
  {
    ghost var m := Completed(delta, size);
    ghost var g := Gates(delta, y, deriv, m);
    var newDelta, failed;
    w, b, newDelta, failed := TrainCompleted(w0, b0, x, y, deriv, size, cols, delta, lr);
    if failed {
      r := Err(if |delta.shape| != 1 then IndexArity else IndexOutOfBounds);
    } else {
      r := Ok(newDelta);
    }
    assert g[..m] == g;
    LearnedFrom(w0, b0, w, b, x, y, deriv, size, cols, delta, lr, r, m, g);
  }

  /** The state of `backward` after neurons 0 .. n-1 with gates g. */
  ghost predicate TrainedThrough(w0: Tensor, b0: Tensor, g: seq<real>, x: seq<real>, lr: real, cols: nat, n: nat,
                                 w: Tensor, b: Tensor, nd: Tensor)
  {
    Wf(w0) && |w0.shape| == 2 && w0.shape[1] == cols && n <= w0.shape[0] && n <= |g| &&
    w == Tensor(w0.shape, Trained(w0.data, g, x, lr, cols, n, 0)) &&
    b == Tensor(b0.shape, TrainedBiases(b0.data, g[..n], lr)) &&
    nd == Propagated(w0, g, cols, n)
  }

  /** Before the loop of `backward` nothing is trained and new_delta is all zeros. */
  lemma TrainedThroughStart(w0: Tensor, b0: Tensor, g: seq<real>, x: seq<real>, lr: real, cols: nat, nd: Tensor)
    requires Wf(w0) && |w0.shape| == 2 && w0.shape[1] == cols && w0.shape[0] >= 0
    requires Wf(nd) && nd.shape == [cols] && forall i :: 0 <= i < |nd.data| ==> nd.data[i] == 0.0
    ensures TrainedThrough(w0, b0, g, x, lr, cols, 0, w0, b0, nd)
  {
    var t := Trained(w0.data, g, x, lr, cols, 0, 0);
    forall j | 0 <= j < |w0.data|
      ensures t[j] == w0.data[j]
    {
      if cols > 0 {
        assert !Before(j, cols, 0, 0);
      }
    }
    assert t == w0.data;
    var tb := TrainedBiases(b0.data, g[..0], lr);
    assert forall n :: 0 <= n < |b0.data| ==> tb[n] == b0.data[n];
    assert tb == b0.data;
    var p := Propagated(w0, g, cols, 0);
    Product1(cols);
    assert |p.data| == |nd.data| == cols;
    assert forall i :: 0 <= i < cols ==> p.data[i] == nd.data[i];
    assert p == nd;
  }

  /** One pass of the loop of `backward`: reads delta_I for the neuron, or stops with
      the exception that read raises. */
  method BackwardStep(ghost w0: Tensor, ghost b0: Tensor, x: Tensor, y: Tensor, deriv: real -> real, size: nat,
                      cols: nat, delta: Tensor, lr: real, neuron: nat, w: Tensor, b: Tensor, nd: Tensor)
    returns (w': Tensor, b': Tensor, nd': Tensor, failed: bool)
    requires Parameters(w0, b0, size, cols)
    requires Wf(y) && y.shape == [size] && |y.data| == size && neuron < size
    requires cols > 0 ==> |x.shape| == 1 && cols <= |x.data|
    requires neuron <= Completed(delta, size)
    requires TrainedThrough(w0, b0, Gates(delta, y, deriv, Completed(delta, size)), x.data, lr, cols, neuron, w, b, nd)
    ensures failed <==> neuron == Completed(delta, size)
    ensures failed ==> w' == w && b' == b && nd' == nd
    ensures !failed ==>
      TrainedThrough(w0, b0, Gates(delta, y, deriv, Completed(delta, size)), x.data, lr, cols, neuron + 1, w', b', nd')
  {
    ghost var g := Gates(delta, y, deriv, Completed(delta, size));
    var d := NeuronDelta(delta, y, deriv, size, neuron);
    if d.Err? {
      return w, b, nd, true;
    }
    assert d.value == g[neuron];
    var deltaI := d.value;
    nd', w', b' := TrainNeuron(w0, b0, w, b, nd, g, x, lr, deltaI, neuron, cols);
    failed := false;
  }

  /** The loop of `backward`: trains the neurons one by one until the gradient
      has no cell for the next one; `failed` says whether that happened. */
  method TrainCompleted(w0: Tensor, b0: Tensor, x: Tensor, y: Tensor, deriv: real -> real, size: nat, cols: nat,
                        delta: Tensor, lr: real)
    returns (w: Tensor, b: Tensor, newDelta: Tensor, failed: bool)
    requires Parameters(w0, b0, size, cols)
    requires Wf(y) && y.shape == [size] && |y.data| == size
    requires size > 0 && cols > 0 ==> |x.shape| == 1 && cols <= |x.data|
    ensures failed <==> Completed(delta, size) < size
    ensures TrainedThrough(w0, b0, Gates(delta, y, deriv, Completed(delta, size)), x.data, lr, cols,
                           Completed(delta, size), w, b, newDelta)
  {
    ghost var m := Completed(delta, size);
    ghost var g := Gates(delta, y, deriv, m);
    Product1(cols);
    newDelta := Zeros([cols]);
    w, b := w0, b0;
    TrainedThroughStart(w0, b0, g, x.data, lr, cols, newDelta);
    for neuron := 0 to size
      invariant neuron <= m
      invariant TrainedThrough(w0, b0, g, x.data, lr, cols, neuron, w, b, newDelta)
    {
      var failedHere;
      w, b, newDelta, failedHere := BackwardStep(w0, b0, x, y, deriv, size, cols, delta, lr, neuron, w, b, newDelta);
      if failedHere {
        return w, b, newDelta, true;
      }
    }
    failed := false;
  }

  /** Learned, from its parts. */
  lemma LearnedFrom(w0: Tensor, b0: Tensor, w1: Tensor, b1: Tensor, x: Tensor, y: Tensor, deriv: real -> real,
                    size: nat, cols: nat, delta: Tensor, lr: real, r: Result<Tensor>, m: nat, g: seq<real>)
    requires Parameters(w0, b0, size, cols) && |y.data| == size
    requires m == Completed(delta, size) && g == Gates(delta, y, deriv, m)
    requires w1 == Tensor(w0.shape, Trained(w0.data, g, x.data, lr, cols, m, 0))
    requires b1 == Tensor(b0.shape, TrainedBiases(b0.data, g, lr))
    requires r == if size > 0 && |delta.shape| != 1 then Err(IndexArity)
                  else if m < size then Err(IndexOutOfBounds)
                  else Ok(Propagated(w0, g, cols, size))
    ensures Learned(w0, b0, w1, b1, x, y, deriv, size, cols, delta, lr, r)
  {
  }

  class DenseTensor {
    var size: nat
    var inputSize: nat
    var biases: Tensor
    var weights: Tensor
    var lastOutput: Tensor
    var lastInput: Tensor
    var activation: real -> real
    var derivative: real -> real

    /** Parameters of the constructed shapes; a cached input that the next
        `backward` can read, and a cached output of one cell per neuron. */
    predicate Valid()
      reads this
    {
      Parameters(weights, biases, size, inputSize) &&
      Wf(lastOutput) && lastOutput.shape == [size] && |lastOutput.data| == size &&
      (size > 0 && inputSize > 0 ==> |lastInput.shape| == 1 && inputSize <= |lastInput.data|)
    }

    /** ReLU and its derivative by default; weights and biases of arbitrary value
        (`randomise` is not part of this model). */
    constructor (size: nat, inputSize: nat)
      ensures Valid() && this.size == size && this.inputSize == inputSize
      ensures activation == Activation.Relu && derivative == Activation.ReluDerivative
      ensures lastOutput == Zeros([size]) && lastInput == Zeros([inputSize])
    {
      this.size := size;
      activation := Activation.Relu;
      derivative := Activation.ReluDerivative;
      new;
      Init(inputSize);
    }

    /** `init`: fresh parameter tensors of the layer's shape with arbitrary values,
        and zero caches. */
    method Init(inputSize: nat)
      modifies this
      ensures Valid() && this.inputSize == inputSize && size == old(size)
      ensures activation == old(activation) && derivative == old(derivative)
      ensures lastOutput == Zeros([size]) && lastInput == Zeros([inputSize])
    {
      this.inputSize := inputSize;
      Product1(size);
      Product1(inputSize);
      Product2(size, inputSize);
      assert |seq(size, _ => 0.0)| == size;
      assert |seq(size * inputSize, _ => 0.0)| == size * inputSize;
      var b: seq<real> :| |b| == size;
      var w: seq<real> :| |w| == size * inputSize;
      biases := Tensor([size], b);
      weights := Tensor([size, inputSize], w);
      lastOutput := Zeros([size]);
      lastInput := Zeros([inputSize]);
    }

    /** `forward`: returns Respond on the current parameters; on success it caches
        the input and the output, and it never changes a parameter. */
    method Forward(input: Tensor) returns (r: Result<Tensor>)
      requires Valid()
      modifies this
      ensures Valid()
      ensures r == Respond(weights, biases, activation, input, size, inputSize)
      ensures size == old(size) && inputSize == old(inputSize)
      ensures weights == old(weights) && biases == old(biases)
      ensures activation == old(activation) && derivative == old(derivative)
      ensures r.Ok? ==> lastInput == input && lastOutput == r.value
      ensures r.Err? ==> lastInput == old(lastInput) && lastOutput == old(lastOutput)
    {
      Product1(size);
      var output := Zeros([size]);
      var cells := output.data;
      for neuron := 0 to size
        invariant Valid() && unchanged(this)
        invariant output == Tensor([size], cells) && |cells| == size
        invariant neuron > 0 && inputSize > 0 ==> |input.shape| == 1 && inputSize <= |input.data|
        invariant forall a :: 0 <= a < size ==>
          cells[a] == if a < neuron then Neuron(weights, biases, activation, input, size, inputSize, a) else 0.0
      {
        var sum := WeightedInput(input, weights, neuron, inputSize);
        if sum.Err? {
          return Err(sum.error);
        }
        Offset1(size, neuron);
        output := Put(output, [neuron], activation(sum.value + At(biases, [neuron])));
        cells := cells[neuron := activation(sum.value + At(biases, [neuron]))];
      }
      assert cells == Respond(weights, biases, activation, input, size, inputSize).value.data;
      lastInput := input;
      lastOutput := output;
      return Ok(output);
    }

    /** `backward`: Learn on the cached input and output and the current parameters;
        only the parameters change. */
    method Backward(delta: Tensor, learningRate: real) returns (r: Result<Tensor>)
      requires Valid()
      modifies this
      ensures Valid()
      ensures size == old(size) && inputSize == old(inputSize)
      ensures lastInput == old(lastInput) && lastOutput == old(lastOutput)
      ensures activation == old(activation) && derivative == old(derivative)
      ensures Learned(old(weights), old(biases), weights, biases, lastInput, lastOutput, derivative, size, inputSize,
                      delta, learningRate, r)
    {
      weights, biases, r := Learn(weights, biases, lastInput, lastOutput, derivative, size, inputSize, delta, learningRate);
    }

    function GetLastOutput(): Tensor
      reads this
    {
      lastOutput
    }

    function GetActivationFunction(): real -> real
      reads this
    {
      activation
    }

    function GetActivationDerivative(): real -> real
      reads this
    {
      derivative
    }

    function GetBiases(): Tensor
      reads this
    {
      biases
    }

    function GetWeights(): Tensor
      reads this
    {
      weights
    }

    /** `setActivationFunction`: replaces the activation and nothing else. */
    method SetActivationFunction(f: real -> real)
      requires Valid()
      modifies this
      ensures Valid() && GetActivationFunction() == f
      ensures derivative == old(derivative) && weights == old(weights) && biases == old(biases)
      ensures size == old(size) && inputSize == old(inputSize)
      ensures lastInput == old(lastInput) && lastOutput == old(lastOutput)
    {
      activation := f;
    }

    /** `setActivationDerivative`: replaces the derivative and nothing else. */
    method SetActivationDerivative(f: real -> real)
      requires Valid()
      modifies this
      ensures Valid() && GetActivationDerivative() == f
      ensures activation == old(activation) && weights == old(weights) && biases == old(biases)
      ensures size == old(size) && inputSize == old(inputSize)
      ensures lastInput == old(lastInput) && lastOutput == old(lastOutput)
    {
      derivative := f;
    }

    /** `setBiases`, for a tensor of the layer's bias shape. */
    method SetBiases(b: Tensor)
      requires Valid() && Wf(b) && b.shape == [size]
      modifies this
      ensures Valid() && GetBiases() == b
      ensures activation == old(activation) && derivative == old(derivative) && weights == old(weights)
      ensures size == old(size) && inputSize == old(inputSize)
      ensures lastInput == old(lastInput) && lastOutput == old(lastOutput)
    {
      biases := b;
    }

    /** `setWeights`, for a tensor of the layer's weight shape. */
    method SetWeights(w: Tensor)
      requires Valid() && Wf(w) && w.shape == [size, inputSize]
      modifies this
      ensures Valid() && GetWeights() == w
      ensures activation == old(activation) && derivative == old(derivative) && biases == old(biases)
      ensures size == old(size) && inputSize == old(inputSize)
      ensures lastInput == old(lastInput) && lastOutput == old(lastOutput)
    {
      weights := w;
    }
  }
}
