/** `cnn.DenseLayer`: a fully connected layer over Java arrays. Its input and output
    are `[1][1][n]` volumes; `backward` updates each weight first and then propagates
    the gradient through the UPDATED weight. */
module CnnDense {
  import opened Outcomes
  import opened Arrays
  import Activation

  /** Σ_{k<n} x[k] · w[k]. */
  function Weighted(x: seq<real>, w: seq<real>, n: nat): real
    requires n <= |x| && n <= |w|
  {
    if n == 0 then 0.0 else Weighted(x, w, n - 1) + x[n - 1] * w[n - 1]
  }

  /** The feature vector of a `[1][1][n]` array: `input[0][0]`, or nothing when the
      array has no first row to read. */
  function Incoming(v: Volume): seq<real>
  {
    if |v| > 0 && |v[0]| > 0 then v[0][0] else []
  }

  /** What `forward` returns for the weights `weights` (one row per neuron, `cols`
      columns), the biases `biases` and the activation `act`. */
  function Respond(weights: Matrix, biases: seq<real>, act: real -> real, input: Volume, cols: nat)
    : (r: Result<Volume>)
    requires IsMatrix(weights, |weights|, cols) && |biases| == |weights|
    ensures r.Ok? <==> |input| > 0 && |input[0]| > 0 && |input[0][0]| == cols
    ensures r.Err? ==> r.error == if |input| > 0 && |input[0]| > 0 then SizeMismatch else IndexOutOfBounds
    ensures r.Ok? ==> IsVolume(r.value, 1, 1, |weights|)
  {
    if |input| == 0 || |input[0]| == 0 then Err(IndexOutOfBounds)
    else if |input[0][0]| != cols then Err(SizeMismatch)
    else Ok([[seq(|weights|, n requires 0 <= n < |weights| =>
                act(Weighted(input[0][0], weights[n], cols) + biases[n]))]])
  }

  /** Neuron n's gradient δ_n = delta[n] · y_n(1 − y_n) for the first m neurons, where
      y is the cached output. */
  function Gates(delta: seq<real>, y: seq<real>, m: nat): (g: seq<real>)
    requires m <= |delta| && m <= |y|
    ensures |g| == m
  {
    seq(m, n requires 0 <= n < m => delta[n] * Activation.DerivativeSigmoid(y[n]))
  }

  /** How many neurons `backward` completes before the gradient runs out. */
  function Reached(delta: Volume, size: nat): (m: nat)
    ensures m <= size && m <= |Incoming(delta)|
    ensures m == size || m == |Incoming(delta)|
  {
    if |Incoming(delta)| < size then |Incoming(delta)| else size
  }

  /** One weight after its gradient-descent step: u − lr · (δ · x_i). */
  function Moved(u: real, d: real, lr: real, xi: real): real
  {
    u - lr * (d * xi)
  }

  /** One weight row after its step. */
  function Step(row: seq<real>, d: real, x: seq<real>, lr: real): (r: seq<real>)
    requires |row| <= |x|
    ensures |r| == |row|
  {
    seq(|row|, i requires 0 <= i < |row| => Moved(row[i], d, lr, x[i]))
  }

  /** The weights once the rows of the first n neurons have taken their step. */
  function Trained(w0: Matrix, g: seq<real>, x: seq<real>, lr: real, cols: nat, n: nat): (w: Matrix)
    requires IsMatrix(w0, |w0|, cols) && cols <= |x| && n <= |g|
    ensures IsMatrix(w, |w0|, cols)
  {
    seq(|w0|, a requires 0 <= a < |w0| => if a < n then Step(w0[a], g[a], x, lr) else w0[a])
  }

  /** The biases once the first n neurons have taken their step: b_a − lr · δ_a. */
  function TrainedBiases(b0: seq<real>, g: seq<real>, lr: real, n: nat): (b: seq<real>)
    requires n <= |g|
    ensures |b| == |b0|
  {
    seq(|b0|, a requires 0 <= a < |b0| => if a < n then b0[a] - lr * g[a] else b0[a])
  }

  /** Σ_{a<n} g[a] · w[a][i]: column i of the weights weighted by the gradients. */
  function ColumnSum(w: Matrix, g: seq<real>, i: nat, n: nat): real
    requires n <= |g| && CoversMatrix(w, n, i + 1)
  {
    if n == 0 then 0.0 else ColumnSum(w, g, i, n - 1) + g[n - 1] * w[n - 1][i]
  }

  /** The gradient passed back after n neurons: one column sum per input. */
  function Propagated(w: Matrix, g: seq<real>, cols: nat, n: nat): (r: seq<real>)
    requires n <= |g| && CoversMatrix(w, n, cols)
    ensures |r| == cols
  {
    seq(cols, i requires 0 <= i < cols => ColumnSum(w, g, i, n))
  }

  /** Σ_{a<n} g[a]². */
  function SquareSum(g: seq<real>, n: nat): real
    requires n <= |g|
  {
    if n == 0 then 0.0 else SquareSum(g, n - 1) + g[n - 1] * g[n - 1]
  }

  /** The row once its first i weights have taken their step. */
  function RowAfter(row: seq<real>, d: real, x: seq<real>, lr: real, i: nat): (r: seq<real>)
    requires |row| <= |x|
    ensures |r| == |row|
  {
    seq(|row|, j requires 0 <= j < |row| => if j < i then Moved(row[j], d, lr, x[j]) else row[j])
  }

  /** The gradient once the first i updated weights of the row are added to it. */
  function GradientAfter(nd: seq<real>, d: real, r: seq<real>, i: nat): (next: seq<real>)
    requires |nd| <= |r|
    ensures |next| == |nd|
  {
    seq(|nd|, j requires 0 <= j < |nd| => if j < i then nd[j] + d * r[j] else nd[j])
  }

  lemma RowAfterStep(row: seq<real>, x: seq<real>, d: real, lr: real, i: nat)
    requires |row| <= |x| && i < |row|
    ensures RowAfter(row, d, x, lr, i)[i := RowAfter(row, d, x, lr, i)[i] - lr * (d * x[i])]
            == RowAfter(row, d, x, lr, i + 1)
  {
  }

  /** Adding d * u[i], where u agrees with the updated row r at i, advances the
      gradient by one. */
  lemma GradientAfterStep(nd: seq<real>, d: real, r: seq<real>, i: nat, u: seq<real>)
    requires |nd| <= |r| && i < |nd| && i < |u| && u[i] == r[i]
    ensures GradientAfter(nd, d, r, i)[i := GradientAfter(nd, d, r, i)[i] + d * u[i]]
            == GradientAfter(nd, d, r, i + 1)
  {
    var g := GradientAfter(nd, d, r, i)[i := GradientAfter(nd, d, r, i)[i] + d * u[i]];
    assert forall j :: 0 <= j < |g| ==> g[j] == GradientAfter(nd, d, r, i + 1)[j];
  }

  /** The inner loop of `backward` for one neuron: every weight of the row is updated
      and only then multiplied into the accumulating gradient. */
  method UpdateRow(row: seq<real>, x: seq<real>, deltaI: real, lr: real, nd: seq<real>)
    returns (r: seq<real>, next: seq<real>)
    requires |row| == |nd| <= |x|
    ensures r == Step(row, deltaI, x, lr)
    ensures |next| == |nd|
    ensures forall i :: 0 <= i < |nd| ==> next[i] == nd[i] + deltaI * r[i]
  {
    r, next := row, nd;
    assert r == RowAfter(row, deltaI, x, lr, 0);
    assert next == GradientAfter(nd, deltaI, Step(row, deltaI, x, lr), 0);
    for i := 0 to |row|
      invariant r == RowAfter(row, deltaI, x, lr, i)
      invariant next == GradientAfter(nd, deltaI, Step(row, deltaI, x, lr), i)
    {
      RowAfterStep(row, x, deltaI, lr, i);
      // the weight moves against its gradient deltaI * x[i]
      r := r[i := r[i] - lr * (deltaI * x[i])];
      GradientAfterStep(nd, deltaI, Step(row, deltaI, x, lr), i, r);
      next := next[i := next[i] + deltaI * r[i]];
    }
    assert r == Step(row, deltaI, x, lr);
  }

  /** Rows at or after n do not enter a column sum over the first n neurons. */
  lemma {:induction false} ColumnSumFrame(w: Matrix, v: Matrix, g: seq<real>, i: nat, n: nat)
    requires n <= |g| && CoversMatrix(w, n, i + 1) && CoversMatrix(v, n, i + 1)
    requires forall a :: 0 <= a < n ==> w[a][i] == v[a][i]
    ensures ColumnSum(w, g, i, n) == ColumnSum(v, g, i, n)
  {
    if n > 0 {
      ColumnSumFrame(w, v, g, i, n - 1);
    }
  }

  /** One more neuron: its row takes its step, its bias too, and its updated row is
      added into the propagated gradient. */
  lemma NeuronStep(w0: Matrix, b0: seq<real>, g: seq<real>, x: seq<real>, lr: real, cols: nat, n: nat,
                   row: seq<real>, nd: seq<real>, next: seq<real>)
    requires IsMatrix(w0, |w0|, cols) && cols <= |x| && n < |g| && n < |w0|
    requires row == Step(w0[n], g[n], x, lr)
    requires nd == Propagated(Trained(w0, g, x, lr, cols, n), g, cols, n)
    requires |next| == cols && forall i :: 0 <= i < cols ==> next[i] == nd[i] + g[n] * row[i]
    ensures Trained(w0, g, x, lr, cols, n)[n] == w0[n]
    ensures Trained(w0, g, x, lr, cols, n)[n := row] == Trained(w0, g, x, lr, cols, n + 1)
    ensures n < |b0| ==> TrainedBiases(b0, g, lr, n)[n] == b0[n]
    ensures n < |b0| ==> TrainedBiases(b0, g, lr, n)[n := b0[n] - lr * g[n]] == TrainedBiases(b0, g, lr, n + 1)
    ensures next == Propagated(Trained(w0, g, x, lr, cols, n + 1), g, cols, n + 1)
  {
    WeightsStep(w0, g, x, lr, cols, n, row);
    if n < |b0| {
      BiasesStep(b0, g, lr, n);
    }
    PropagatedStep(w0, g, x, lr, cols, n, row, nd, next);
  }

  /** One more row in a column sum. */
  lemma ColumnSumNext(w: Matrix, g: seq<real>, i: nat, n: nat)
    requires n < |g| && CoversMatrix(w, n + 1, i + 1)
    ensures ColumnSum(w, g, i, n + 1) == ColumnSum(w, g, i, n) + g[n] * w[n][i]
  {
  }

  /** Adding neuron n's updated row, times its delta, into the gradient propagated
      through the first n neurons gives the one through n + 1. */
  lemma PropagatedStep(w0: Matrix, g: seq<real>, x: seq<real>, lr: real, cols: nat, n: nat,
                       row: seq<real>, nd: seq<real>, next: seq<real>)
    requires IsMatrix(w0, |w0|, cols) && cols <= |x| && n < |g| && n < |w0|
    requires row == Step(w0[n], g[n], x, lr)
    requires nd == Propagated(Trained(w0, g, x, lr, cols, n), g, cols, n)
    requires |next| == cols && forall i :: 0 <= i < cols ==> next[i] == nd[i] + g[n] * row[i]
    ensures next == Propagated(Trained(w0, g, x, lr, cols, n + 1), g, cols, n + 1)
  {
    var w, w' := Trained(w0, g, x, lr, cols, n), Trained(w0, g, x, lr, cols, n + 1);
    var p := Propagated(w', g, cols, n + 1);
    forall i | 0 <= i < cols
      ensures next[i] == p[i]
    {
      ColumnSumFrame(w, w', g, i, n);
      assert w'[n] == row;
      ColumnSumNext(w', g, i, n);
    }
  }

  /** Neuron n's row is still the original before its step, and the step gives the
      weights after n + 1 neurons. */
  lemma WeightsStep(w0: Matrix, g: seq<real>, x: seq<real>, lr: real, cols: nat, n: nat, row: seq<real>)
    requires IsMatrix(w0, |w0|, cols) && cols <= |x| && n < |g| && n < |w0|
    requires row == Step(w0[n], g[n], x, lr)
    ensures Trained(w0, g, x, lr, cols, n)[n] == w0[n]
    ensures Trained(w0, g, x, lr, cols, n)[n := row] == Trained(w0, g, x, lr, cols, n + 1)
  {
    var w, w' := Trained(w0, g, x, lr, cols, n), Trained(w0, g, x, lr, cols, n + 1);
    assert w[n] == w0[n];
    assert w[n := row] == w' by {
      forall a | 0 <= a < |w0|
        ensures w[n := row][a] == w'[a]
      {
      }
    }
  }

  /** Neuron n's bias is still the original before its step, and the step gives the
      biases after n + 1 neurons. */
  lemma BiasesStep(b0: seq<real>, g: seq<real>, lr: real, n: nat)
    requires n < |g| && n < |b0|
    ensures TrainedBiases(b0, g, lr, n)[n] == b0[n]
    ensures TrainedBiases(b0, g, lr, n)[n := b0[n] - lr * g[n]] == TrainedBiases(b0, g, lr, n + 1)
  {
    var b, b' := TrainedBiases(b0, g, lr, n), TrainedBiases(b0, g, lr, n + 1);
    assert b[n := b0[n] - lr * g[n]] == b' by {
      forall a | 0 <= a < |b0|
        ensures b[n := b0[n] - lr * g[n]][a] == b'[a]
      {
      }
    }
  }

  /** Σ_{a<n} g[a] · (lr · (g[a] · xi)): what the weight steps of the first n neurons
      take off column i of the propagated gradient. */
  function Shift(g: seq<real>, lr: real, xi: real, n: nat): real
    requires n <= |g|
  {
    if n == 0 then 0.0 else Shift(g, lr, xi, n - 1) + g[n - 1] * (lr * (g[n - 1] * xi))
  }

  /** Propagating through weights that each moved by −lr · (g_a · x_i) gives the
      propagation through the old weights minus the shift. */
  lemma {:induction false} ShiftedColumnSum(w: Matrix, w0: Matrix, g: seq<real>, lr: real, xi: real, i: nat, n: nat)
    requires n <= |g| && CoversMatrix(w, n, i + 1) && CoversMatrix(w0, n, i + 1)
    requires forall a :: 0 <= a < n ==> w[a][i] == Moved(w0[a][i], g[a], lr, xi)
    ensures ColumnSum(w, g, i, n) == ColumnSum(w0, g, i, n) - Shift(g, lr, xi, n)
  {
    if n > 0 {
      ShiftedColumnSum(w, w0, g, lr, xi, i, n - 1);
      Distribute(g[n - 1], w0[n - 1][i], lr, xi);
    }
  }

  /** The algebra of one step of `ShiftedColumnSum`. */
  lemma Distribute(d: real, u: real, lr: real, xi: real)
    ensures d * Moved(u, d, lr, xi) == d * u - d * (lr * (d * xi))
  {
  }

  /** The shift is lr · xi · Σ g². */
  lemma {:induction false} ShiftIsSquares(g: seq<real>, lr: real, xi: real, n: nat)
    requires n <= |g|
    ensures Shift(g, lr, xi, n) == lr * xi * SquareSum(g, n)
  {
    if n > 0 {
      ShiftIsSquares(g, lr, xi, n - 1);
      Rearrange(g[n - 1], lr, xi, SquareSum(g, n - 1));
    }
  }

  /** The algebra of one step of `ShiftIsSquares`. */
  lemma Rearrange(d: real, lr: real, xi: real, q: real)
    ensures lr * xi * q + d * (lr * (d * xi)) == lr * xi * (q + d * d)
  {
  }

  /** The gradient `backward` returns (through the updated weights) against the one the
      pre-update weights give: column i differs by the shift, lr · x_i · Σ g². */
  lemma PropagatedAfterUpdate(w0: Matrix, g: seq<real>, x: seq<real>, lr: real, cols: nat, m: nat)
    requires IsMatrix(w0, |w0|, cols) && cols <= |x| && m <= |g| && m <= |w0|
    ensures forall i :: 0 <= i < cols ==>
      Propagated(Trained(w0, g, x, lr, cols, m), g, cols, m)[i] == Propagated(w0, g, cols, m)[i] - Shift(g, lr, x[i], m)
  {
    forall i | 0 <= i < cols
      ensures Propagated(Trained(w0, g, x, lr, cols, m), g, cols, m)[i]
           == Propagated(w0, g, cols, m)[i] - Shift(g, lr, x[i], m)
    {
      PropagatedCell(w0, g, x, lr, cols, m, i);
    }
  }

  /** Column i of the trained weights: the first m rows moved, the others kept. */
  lemma TrainedColumn(w0: Matrix, g: seq<real>, x: seq<real>, lr: real, cols: nat, m: nat, i: nat)
    requires IsMatrix(w0, |w0|, cols) && cols <= |x| && m <= |g| && m <= |w0| && i < cols
    ensures forall a :: 0 <= a < |w0| ==>
      Trained(w0, g, x, lr, cols, m)[a][i] == if a < m then Moved(w0[a][i], g[a], lr, x[i]) else w0[a][i]
  {
  }

  lemma PropagatedCell(w0: Matrix, g: seq<real>, x: seq<real>, lr: real, cols: nat, m: nat, i: nat)
    requires IsMatrix(w0, |w0|, cols) && cols <= |x| && m <= |g| && m <= |w0| && i < cols
    ensures ColumnSum(Trained(w0, g, x, lr, cols, m), g, i, m) == ColumnSum(w0, g, i, m) - Shift(g, lr, x[i], m)
  {
    TrainedColumn(w0, g, x, lr, cols, m, i);
    ShiftedColumnSum(Trained(w0, g, x, lr, cols, m), w0, g, lr, x[i], i, m);
  }

  /** A sum of squares with a non-zero term is positive. */
  lemma {:induction false} SquareSumPositive(g: seq<real>, n: nat, a: nat)
    requires a < n <= |g| && g[a] != 0.0
    ensures SquareSum(g, n) > 0.0
  {
    if n - 1 == a {
      SquareSumNonNegative(g, n - 1);
      Activation.Square(g[a], g[a] * g[a]);
    } else {
      SquareSumPositive(g, n - 1, a);
      Activation.Square(g[n - 1], g[n - 1] * g[n - 1]);
    }
  }

  lemma {:induction false} SquareSumNonNegative(g: seq<real>, n: nat)
    requires n <= |g|
    ensures SquareSum(g, n) >= 0.0
  {
    if n > 0 {
      SquareSumNonNegative(g, n - 1);
      Activation.Square(g[n - 1], g[n - 1] * g[n - 1]);
    }
  }

  lemma NonZeroProduct(a: real, b: real, p: real)
    requires a != 0.0 && b != 0.0 && p == a * b
    ensures p != 0.0
  {
  }

  /** Whenever the rate, input i and some neuron's gradient are all non-zero, the
      gradient `backward` returns at i differs from the one the pre-update weights
      would give. */
  lemma UpdatedPropagationDiffers(w0: Matrix, g: seq<real>, x: seq<real>, lr: real, cols: nat, m: nat,
                                  i: nat, a: nat)
    requires IsMatrix(w0, |w0|, cols) && cols <= |x| && m <= |g| && m <= |w0| && i < cols
    requires a < m && g[a] != 0.0 && lr != 0.0 && x[i] != 0.0
    ensures Propagated(Trained(w0, g, x, lr, cols, m), g, cols, m)[i] != Propagated(w0, g, cols, m)[i]
  {
    PropagatedAfterUpdate(w0, g, x, lr, cols, m);
    ShiftIsSquares(g, lr, x[i], m);
    SquareSumPositive(g, m, a);
    NonZeroProduct(lr, x[i], lr * x[i]);
    NonZeroProduct(lr * x[i], SquareSum(g, m), lr * x[i] * SquareSum(g, m));
  }

  /** One neuron, one input, weight 1, gradient 1, input 1, rate 0.1: the returned
      gradient is 0.9, where the pre-update weight would give 1. */
  lemma UpdatedWeightExample()
    ensures Propagated(Trained([[1.0]], [1.0], [1.0], 0.1, 1, 1), [1.0], 1, 1) == [0.9]
    ensures Propagated([[1.0]], [1.0], 1, 1) == [1.0]
  {
    PropagatedAfterUpdate([[1.0]], [1.0], [1.0], 0.1, 1, 1);
    assert Shift([1.0], 0.1, 1.0, 1) == 0.1;
  }

  /** With a zero learning rate the parameters do not move. */
  lemma ZeroRateKeepsParameters(w0: Matrix, b0: seq<real>, g: seq<real>, x: seq<real>, cols: nat, n: nat)
    requires IsMatrix(w0, |w0|, cols) && cols <= |x| && n <= |g|
    ensures Trained(w0, g, x, 0.0, cols, n) == w0
    ensures TrainedBiases(b0, g, 0.0, n) == b0
  {
    var w := Trained(w0, g, x, 0.0, cols, n);
    forall a | 0 <= a < |w0|
      ensures w[a] == w0[a]
    {
    }
  }

  /** The contract of `backward` on values: w0 and b0 are the parameters before the
      call, w1 and b1 after it, x and y the cached input and output rows. */
  ghost predicate Learned(w0: Matrix, b0: seq<real>, w1: Matrix, b1: seq<real>, x: seq<real>, y: seq<real>,
                          cols: nat, delta: Volume, lr: real, r: Result<Volume>)
  {
    IsMatrix(w0, |w0|, cols) && |b0| == |w0| && |y| == |w0| && cols <= |x| &&
    var m := Reached(delta, |w0|);
    var g := Gates(Incoming(delta), y, m);
    && w1 == Trained(w0, g, x, lr, cols, m)
    && b1 == TrainedBiases(b0, g, lr, m)
    && r == if m < |w0| then Err(IndexOutOfBounds) else Ok([[Propagated(w1, g, cols, m)]])
  }

  class DenseLayer {
    var size: nat
    var previousLayerSize: nat
    var biases: seq<real>
    var weights: Matrix
    var lastOutput: Volume
    var lastInput: Volume
    /** `Activation.sigmoid`, which needs `exp`: left uninterpreted. */
    const sigmoid: real -> real

    /** One weight row and one bias per neuron, one column per input; the caches are
        `[1][1][size]` and `[1][1][previousLayerSize]` arrays. */
    predicate Valid()
      reads this
    {
      IsMatrix(weights, size, previousLayerSize) && |biases| == size
      && IsVolume(lastOutput, 1, 1, size)
      && |lastInput| > 0 && |lastInput[0]| > 0 && |lastInput[0][0]| == previousLayerSize
    }

    constructor (size: nat, previousLayerSize: nat, sigmoid: real -> real)
      ensures Valid() && this.size == size && this.previousLayerSize == previousLayerSize
      ensures this.sigmoid == sigmoid
      ensures forall n :: 0 <= n < size ==> 0.0 <= biases[n] < 1.0
      ensures forall n, k :: 0 <= n < size && 0 <= k < previousLayerSize ==> -1.0 <= weights[n][k] < 1.0
      ensures lastOutput == Zeros3(1, 1, size) && lastInput == Zeros3(1, 1, previousLayerSize)
    {
      this.size := size;
      this.sigmoid := sigmoid;
      new;
      Init(previousLayerSize);
    }

    /** `init`: fresh caches and new parameters, biases drawn from [0, 1) and weights
        from [−1, 1). */
    method Init(previousLayerSize: nat)
      modifies this
      ensures Valid() && this.previousLayerSize == previousLayerSize && size == old(size)
      ensures forall n :: 0 <= n < size ==> 0.0 <= biases[n] < 1.0
      ensures forall n, k :: 0 <= n < size && 0 <= k < previousLayerSize ==> -1.0 <= weights[n][k] < 1.0
      ensures lastOutput == Zeros3(1, 1, size) && lastInput == Zeros3(1, 1, previousLayerSize)
    {
      this.previousLayerSize := previousLayerSize;
      lastOutput := Zeros3(1, 1, size);
      lastInput := Zeros3(1, 1, previousLayerSize);
      assert |seq(size, _ => 0.0)| == size;
      assert IsMatrix(Zeros2(size, previousLayerSize), size, previousLayerSize);
      var b :| |b| == size && forall n :: 0 <= n < size ==> 0.0 <= b[n] < 1.0;
      var w :| IsMatrix(w, size, previousLayerSize)
        && forall n, k :: 0 <= n < size && 0 <= k < previousLayerSize ==> -1.0 <= w[n][k] < 1.0;
      biases, weights := b, w;
    }

    /** `forward`: checks the input length, computes σ(W·x + b) and caches the input
        and the output; the parameters are only read. */
    method Forward(input: Volume) returns (r: Result<Volume>)
      requires Valid()
      modifies this
      ensures Valid()
      ensures r == Respond(weights, biases, sigmoid, input, previousLayerSize)
      ensures weights == old(weights) && biases == old(biases)
      ensures size == old(size) && previousLayerSize == old(previousLayerSize)
      ensures r.Ok? ==> lastInput == input && lastOutput == r.value
      ensures r.Err? ==> lastInput == old(lastInput) && lastOutput == old(lastOutput)
    {
      if |input| == 0 || |input[0]| == 0 {
        return Err(IndexOutOfBounds);
      }
      if |input[0][0]| != previousLayerSize {
        return Err(SizeMismatch);
      }
      var x, cols, w, b := input[0][0], previousLayerSize, weights, biases;
      var out := seq(|w|, _ => 0.0);
      for neuron := 0 to |w|
        invariant unchanged(this)
        invariant |out| == |w|
        invariant forall n :: 0 <= n < |w| ==>
          out[n] == if n < neuron then sigmoid(Weighted(x, w[n], cols) + b[n]) else 0.0
      {
        var sum := WeightedRow(x, w[neuron], cols);
        out := out[neuron := sigmoid(sum + b[neuron])];
      }
      ghost var expected := Respond(w, b, sigmoid, input, cols).value;
      assert out == expected[0][0] by {
        assert |expected[0][0]| == |w|;
        forall n | 0 <= n < |w|
          ensures out[n] == expected[0][0][n]
        {
        }
      }
      r := Ok([[out]]);
      lastInput, lastOutput := input, [[out]];
    }

    /** `backward`: for each neuron in turn, δ = delta · σ'(cached output), then each
        weight of its row is stepped and multiplied into the returned gradient, then
        its bias is stepped. A gradient shorter than the layer stops the pass after the
        neurons it covers, whose updates stay. */
    method Backward(delta: Volume, learningRate: real) returns (r: Result<Volume>)
      requires Valid()
      modifies this
      ensures Valid()
      ensures size == old(size) && previousLayerSize == old(previousLayerSize)
      ensures lastInput == old(lastInput) && lastOutput == old(lastOutput)
      ensures var m := Reached(delta, size);
              var g := Gates(Incoming(delta), lastOutput[0][0], m);
              && weights == Trained(old(weights), g, lastInput[0][0], learningRate, previousLayerSize, m)
              && biases == TrainedBiases(old(biases), g, learningRate, m)
              && r == if m < size then Err(IndexOutOfBounds)
                      else Ok([[Propagated(weights, g, previousLayerSize, m)]])
      ensures Learned(old(weights), old(biases), weights, biases, lastInput[0][0], lastOutput[0][0], previousLayerSize,
                      delta, learningRate, r)
    {
      var w, b, newDelta, reached :=
        Train(weights, biases, lastInput[0][0], lastOutput[0][0], delta, learningRate, previousLayerSize);
      weights, biases := w, b;
      if reached < size {
        return Err(IndexOutOfBounds);
      }
      return Ok([[newDelta]]);
    }

    function GetLastOutput(): Volume
      reads this
    {
      lastOutput
    }
  }

  /** The neuron loop of `backward` over the weights w0, the biases b0, the cached
      input x and the cached output y: it stops at the first neuron whose gradient
      `delta[0][0][neuron]` cannot be read, and the neurons before it keep their
      updates. */
  method Train(w0: Matrix, b0: seq<real>, x: seq<real>, y: seq<real>, delta: Volume, lr: real, cols: nat)
    returns (w: Matrix, b: seq<real>, newDelta: seq<real>, reached: nat)
    requires IsMatrix(w0, |w0|, cols) && |b0| == |w0| && |y| == |w0| && cols <= |x|
    ensures reached == Reached(delta, |w0|)
    ensures var g := Gates(Incoming(delta), y, reached);
            && w == Trained(w0, g, x, lr, cols, reached)
            && b == TrainedBiases(b0, g, lr, reached)
            && newDelta == Propagated(w, g, cols, reached)
  {
    ghost var m := Reached(delta, |w0|);
    ghost var g := Gates(Incoming(delta), y, m);
    w, b, newDelta := w0, b0, seq(cols, _ => 0.0);
    assert newDelta == Propagated(Trained(w0, g, x, lr, cols, 0), g, cols, 0);
    reached := 0;
    while reached < |w0| && |delta| > 0 && |delta[0]| > 0 && reached < |delta[0][0]|
      invariant reached <= m
      invariant w == Trained(w0, g, x, lr, cols, reached)
      invariant b == TrainedBiases(b0, g, lr, reached)
      invariant newDelta == Propagated(w, g, cols, reached)
    {
      var derivative := Activation.DerivativeSigmoid(y[reached]);
      var deltaI := delta[0][0][reached] * derivative;
      w, b, newDelta := TrainNeuron(w0, b0, g, x, lr, cols, reached, w, b, newDelta, deltaI);
      reached := reached + 1;
    }
  }

  /** One pass of the neuron loop: neuron n's weights are stepped and multiplied into
      the gradient one input at a time, then its bias is stepped. */
  method TrainNeuron(ghost w0: Matrix, ghost b0: seq<real>, ghost g: seq<real>, x: seq<real>, lr: real,
                     cols: nat, n: nat, w: Matrix, b: seq<real>, nd: seq<real>, deltaI: real)
    returns (w': Matrix, b': seq<real>, nd': seq<real>)
    requires IsMatrix(w0, |w0|, cols) && |b0| == |w0| && cols <= |x| && n < |g| && n < |w0|
    requires deltaI == g[n]
    requires w == Trained(w0, g, x, lr, cols, n) && b == TrainedBiases(b0, g, lr, n)
    requires nd == Propagated(w, g, cols, n)
    ensures w' == Trained(w0, g, x, lr, cols, n + 1)
    ensures b' == TrainedBiases(b0, g, lr, n + 1)
    ensures nd' == Propagated(w', g, cols, n + 1)
  {
    assert w[n] == w0[n];
    var row, next := UpdateRow(w[n], x, deltaI, lr, nd);
    NeuronStep(w0, b0, g, x, lr, cols, n, row, nd, next);
    assert b[n] - lr * deltaI == b0[n] - lr * g[n];
    w', b', nd' := w[n := row], b[n := b[n] - lr * deltaI], next;
  }

  /** The inner loop of `forward` for one neuron. */
  method WeightedRow(x: seq<real>, w: seq<real>, cols: nat) returns (sum: real)
    requires cols <= |x| && cols <= |w|
    ensures sum == Weighted(x, w, cols)
  {
    sum := 0.0;
    for k := 0 to cols
      invariant sum == Weighted(x, w, k)
    {
      sum := sum + x[k] * w[k];
    }
  }
}
