/** The network over `double[][][]` layers (src/cnn/CNN.java): an ordered list of
    layers that `forward` runs first to last, re-sizing a Dense layer to the width
    of the row it is handed, and `backward` runs last to first with learning rate
    0.1. A Java exception thrown on the way ends the pass; it is the Err result. */
module CnnNetwork {
  import opened Outcomes
  import opened Arrays
  import opened ConvMath
  import CnnDense
  import CnnConv
  import Pool
  import Flatten

  /** The learning rate `backward` hands every layer. */
  const LearningRate: real := 0.1

  /** A layer as the list holds it: Java picks `forward` and `backward` by the
      object's class, and the base class Layer throws UnsupportedOperationException
      from both. */
  datatype Layer =
    | Dense(dense: CnnDense.DenseLayer)
    | Conv(conv: CnnConv.ConvLayer)
    | Pooling(pool: Pool.PoolLayer)
    | Flat(flatten: Flatten.FlattenLayer)
    | Base

  /** The objects a layer's methods may change. */
  function Objects(l: Layer): set<object>
  {
    match l
    case Dense(d) => {d}
    case Conv(c) => {c}
    case Pooling(p) => {p}
    case Flat(f) => {f}
    case Base => {}
  }

  predicate LayerValid(l: Layer)
    reads Objects(l)
  {
    match l
    case Dense(d) => d.Valid()
    case Conv(c) => c.Valid()
    case _ => true
  }

  /** Every field of a layer object, as a value. */
  datatype View =
    | DenseView(size: nat, previousLayerSize: nat, biases: seq<real>, weights: Matrix, lastOutput: Volume,
                lastInput: Volume, sigmoid: real -> real)
    | ConvView(kernelNum: nat, kernelChannels: nat, kernelHeight: nat, kernelWidth: nat, kernels: seq<Volume>,
               biases: seq<real>, outputHeight: int, outputWidth: int, stride: int, padding: int, inputTensor: Volume)
    | PoolView(poolHeight: int, poolWidth: int, stride: int)
    | FlattenView(cIn: nat, hIn: nat, wIn: nat)
    | BaseView

  ghost function ViewOf(l: Layer): View
    reads Objects(l)
  {
    match l
    case Dense(d) =>
      DenseView(d.size, d.previousLayerSize, d.biases, d.weights, d.lastOutput, d.lastInput, d.sigmoid)
    case Conv(c) =>
      ConvView(c.kernelNum, c.kernelChannels, c.kernelHeight, c.kernelWidth, c.kernels, c.biases,
               c.outputHeight, c.outputWidth, c.stride, c.padding, c.inputTensor)
    case Pooling(p) => PoolView(p.poolHeight, p.poolWidth, p.stride)
    case Flat(f) => FlattenView(f.cIn, f.hIn, f.wIn)
    case Base => BaseView
  }

  /** The weights `init` draws: each in [-1, 1), each bias in [0, 1). */
  ghost predicate Redrawn(weights: Matrix, biases: seq<real>, size: nat, cols: nat)
  {
    IsMatrix(weights, size, cols) && |biases| == size &&
    (forall n :: 0 <= n < size ==> 0.0 <= biases[n] < 1.0) &&
    (forall n, k :: 0 <= n < size && 0 <= k < cols ==> -1.0 <= weights[n][k] < 1.0)
  }

  /** A layer whose fields were v0 and are now v1 maps x to r in a `forward` pass. A
      Dense layer is handed x only if x[0][0] can be read; if its width differs from
      the layer's input size, `init` first re-sizes the layer to it and redraws the
      parameters. A Conv layer caches x and its output size and scans the channels
      ScannedChannels picks from the input cached before. */
  ghost predicate Forwarded(v0: View, v1: View, x: Volume, r: Result<Volume>)
  {
    match v0
    case DenseView(size, cols, biases, weights, _, _, sigmoid) =>
      if |x| == 0 || |x[0]| == 0 then r == Err(IndexOutOfBounds) && v1 == v0
      else
        v1.DenseView? && v1.size == size && v1.previousLayerSize == |x[0][0]| && v1.sigmoid == sigmoid &&
        IsMatrix(v1.weights, size, |x[0][0]|) && |v1.biases| == size &&
        (|x[0][0]| == cols ==> v1.weights == weights && v1.biases == biases) &&
        (|x[0][0]| != cols ==> Redrawn(v1.weights, v1.biases, size, |x[0][0]|)) &&
        r == CnnDense.Respond(v1.weights, v1.biases, sigmoid, x, |x[0][0]|) &&
        (r.Ok? ==> v1.lastInput == x && v1.lastOutput == r.value)
    case ConvView(kn, kc, kh, kw, kernels, biases, _, _, stride, padding, cached) =>
      v1.ConvView? && v1 == v0.(outputHeight := v1.outputHeight, outputWidth := v1.outputWidth, inputTensor := x) &&
      CnnConv.Emitted(x, |cached|, kernels, biases, kn, kc, Geometry(kh, kw, stride, padding), r)
    case PoolView(ph, pw, stride) =>
      v1 == v0 && r == Pool.PoolForward(x, ph, pw, stride)
    case FlattenView(_, h0, w0) =>
      v1.FlattenView? && Flatten.Emitted(x, h0, w0, v1.cIn, v1.hIn, v1.wIn, r)
    case BaseView =>
      v1 == v0 && r == Err(Unsupported)
  }

  /** The index condition this model puts on a Conv layer's `backward` (every read in
      range); the other layers take any gradient. */
  predicate BackwardModelled(l: Layer, delta: Volume)
    requires LayerValid(l)
    reads Objects(l)
  {
    match l
    case Conv(c) =>
      |c.inputTensor| >= 1 && |c.inputTensor[0]| >= 1 ==>
        CnnConv.BackwardFits(c.inputTensor, c.kernels, delta, c.kernelNum, c.kernelChannels,
                             c.outputHeight, c.outputWidth, c.Frame())
    case _ => true
  }

  /** A layer whose fields were v0 and are now v1 maps delta to r by `backward` at
      learning rate lr; only the parameters may move. */
  ghost predicate Backwarded(v0: View, v1: View, delta: Volume, lr: real, r: Result<Volume>)
  {
    match v0
    case DenseView(_, cols, biases, weights, y, x, _) =>
      v1.DenseView? && v1 == v0.(weights := v1.weights, biases := v1.biases) &&
      |x| > 0 && |x[0]| > 0 && |y| > 0 && |y[0]| > 0 &&
      CnnDense.Learned(weights, biases, v1.weights, v1.biases, x[0][0], y[0][0], cols, delta, lr, r)
    case ConvView(kn, kc, kh, kw, kernels, biases, hOut, wOut, stride, padding, x) =>
      v1.ConvView? && v1 == v0.(kernels := v1.kernels, biases := v1.biases) &&
      exists gated :: CnnConv.Learned(x, kernels, biases, delta, kn, kc, hOut, wOut, lr,
                                      Geometry(kh, kw, stride, padding), r, gated, v1.kernels, v1.biases)
    case FlattenView(c, h, w) =>
      v1 == v0 && r == Flatten.Restored(delta, c, h, w)
    case _ =>
      v1 == v0 && r == Err(Unsupported)
  }

  /** One iteration of `forward`'s loop: the Dense re-size check, then
      `layer.forward(output)`, dispatched on the layer's class. */
  method ForwardStep(l: Layer, x: Volume) returns (r: Result<Volume>)
    requires LayerValid(l)
    modifies Objects(l)
    ensures LayerValid(l)
    ensures Forwarded(old(ViewOf(l)), ViewOf(l), x, r)
  {
    match l
    case Dense(d) =>
      if |x| == 0 || |x[0]| == 0 {
        return Err(IndexOutOfBounds);
      }
      if |x[0][0]| != d.previousLayerSize {
        d.Init(|x[0][0]|);
      }
      r := d.Forward(x);
    case Conv(c) =>
      r := c.Forward(x);
    case Pooling(p) =>
      r := p.Forward(x);
    case Flat(f) =>
      r := f.Forward(x);
    case Base =>
      r := Err(Unsupported);
  }

  /** `layers.get(i).backward(output, lr)`, dispatched on the layer's class. */
  method BackwardStep(l: Layer, delta: Volume, lr: real) returns (r: Result<Volume>)
    requires LayerValid(l) && BackwardModelled(l, delta)
    modifies Objects(l)
    ensures LayerValid(l)
    ensures Backwarded(old(ViewOf(l)), ViewOf(l), delta, lr, r)
  {
    match l
    case Dense(d) =>
      r := d.Backward(delta, lr);
    case Conv(c) =>
      var gated;
      r, gated := c.Backward(delta, lr);
    case Pooling(p) =>
      r := p.Backward(delta, lr);
    case Flat(f) =>
      r := f.Backward(delta, lr);
    case Base =>
      r := Err(Unsupported);
  }

  /** A Dense layer in the network adapts to whatever row it is handed: it fails only
      when there is no row to read, never with a size mismatch. */
  lemma DenseAdapts(v0: View, v1: View, x: Volume, r: Result<Volume>)
    requires v0.DenseView? && Forwarded(v0, v1, x, r)
    ensures r.Ok? <==> |x| > 0 && |x[0]| > 0
    ensures r.Ok? ==> IsVolume(r.value, 1, 1, v0.size)
  {
  }

  /** Pooling has no `backward` of its own, so a `backward` pass through a network
      holding a pooling layer fails there. */
  lemma PoolingStopsBackward(v0: View, v1: View, delta: Volume, lr: real, r: Result<Volume>)
    requires v0.PoolView? && Backwarded(v0, v1, delta, lr, r)
    ensures r == Err(Unsupported) && v1 == v0
  {
  }

  class CNN {
    var layers: seq<Layer>
    var verbose: bool

    constructor ()
      ensures layers == [] && !verbose
    {
      layers, verbose := [], false;
    }

    /** `addLayer`: appends the layer; nothing else changes. */
    method AddLayer(layer: Layer)
      modifies this
      ensures layers == old(layers) + [layer] && verbose == old(verbose)
    {
      layers := layers + [layer];
    }

    /** `setVerbose`: sets the flag; the layers stay. */
    method SetVerbose(verbose: bool)
      modifies this
      ensures this.verbose == verbose && layers == old(layers)
    {
      this.verbose := verbose;
    }

    /** The objects of all layers. */
    ghost function Repr(): set<object>
      reads this
    {
      set i, o | 0 <= i < |layers| && o in Objects(layers[i]) :: o
    }

    ghost predicate Valid()
      reads this, Repr()
    {
      forall i :: 0 <= i < |layers| ==> LayerValid(layers[i])
    }

    /** No layer object is in the list twice. */
    ghost predicate Distinct()
      reads this
    {
      forall i, j :: 0 <= i < j < |layers| ==> Objects(layers[i]) !! Objects(layers[j])
    }

    /** Runs one iteration of `forward` on layer i; the other layers keep every
        field. */
    method ForwardAt(i: nat, x: Volume) returns (r: Result<Volume>)
      requires Valid() && Distinct() && i < |layers|
      modifies Objects(layers[i])
      ensures Valid()
      ensures Forwarded(old(ViewOf(layers[i])), ViewOf(layers[i]), x, r)
      ensures forall k :: 0 <= k < |layers| && k != i ==> ViewOf(layers[k]) == old(ViewOf(layers[k]))
    {
      r := ForwardStep(layers[i], x);
      forall k | 0 <= k < |layers| && k != i
        ensures ViewOf(layers[k]) == old(ViewOf(layers[k])) && LayerValid(layers[k])
      {
        assert Objects(layers[k]) !! Objects(layers[i]);
      }
    }

    /** Runs layer i backward at the network's learning rate; the other layers keep
        every field. */
    method BackwardAt(i: nat, delta: Volume) returns (r: Result<Volume>)
      requires Valid() && Distinct() && i < |layers| && BackwardModelled(layers[i], delta)
      modifies Objects(layers[i])
      ensures Valid()
      ensures Backwarded(old(ViewOf(layers[i])), ViewOf(layers[i]), delta, LearningRate, r)
      ensures forall k :: 0 <= k < |layers| && k != i ==> ViewOf(layers[k]) == old(ViewOf(layers[k]))
    {
      r := BackwardStep(layers[i], delta, LearningRate);
      forall k | 0 <= k < |layers| && k != i
        ensures ViewOf(layers[k]) == old(ViewOf(layers[k])) && LayerValid(layers[k])
      {
        assert Objects(layers[k]) !! Objects(layers[i]);
      }
    }

    /** `forward`: trace[i] is what layer i is handed, starting from the input, and
        layer i maps it to trace[i + 1]. The pass stops at the first layer that fails,
        whose error is the result; the layers after it are untouched. An empty network
        returns its input. */
    method Forward(input: Volume) returns (r: Result<Volume>, ghost trace: seq<Volume>)
      requires Valid() && Distinct()
      modifies Repr()
      ensures Valid() && layers == old(layers) && verbose == old(verbose)
      ensures 1 <= |trace| <= |layers| + 1 && trace[0] == input
      ensures forall i :: 0 <= i < |trace| - 1 ==>
        Forwarded(old(Views())[i], ViewOf(layers[i]), trace[i], Ok(trace[i + 1]))
      ensures forall i :: |trace| <= i < |layers| ==> ViewOf(layers[i]) == old(Views())[i]
      ensures r.Ok? ==> |trace| == |layers| + 1 && r.value == trace[|layers|]
      ensures r.Err? ==>
        |trace| <= |layers| &&
        Forwarded(old(Views())[|trace| - 1], ViewOf(layers[|trace| - 1]), trace[|trace| - 1], r)
      ensures |layers| == 0 ==> r == Ok(input)
    {
      var output := input;
      trace := [input];
      for i := 0 to |layers|
        invariant |trace| == i + 1 && trace[0] == input && output == trace[i]
        invariant Valid()
        invariant forall j :: 0 <= j < i ==>
          Forwarded(old(ViewOf(layers[j])), ViewOf(layers[j]), trace[j], Ok(trace[j + 1]))
        invariant forall j :: i <= j < |layers| ==> ViewOf(layers[j]) == old(ViewOf(layers[j]))
      {
        var step := ForwardAt(i, output);
        if step.Err? {
          return step, trace;
        }
        output := step.value;
        trace := trace + [output];
      }
      r := Ok(output);
    }

    /** The fields of every layer, as values. */
    ghost function Views(): (vs: seq<View>)
      reads this, Repr()
      ensures |vs| == |layers| && forall k :: 0 <= k < |layers| ==> vs[k] == ViewOf(layers[k])
    {
      seq(|layers|, k requires 0 <= k < |layers| reads this, Repr() => ViewOf(layers[k]))
    }

    /** Layers lo .. |layers| - 1, whose fields were views0, have each mapped
        handed[k + 1] to handed[k] by `backward`. */
    ghost predicate BackwardedAbove(views0: seq<View>, handed: seq<Volume>, lo: int)
      reads this, Repr()
    {
      |views0| == |layers| && |handed| == |layers| + 1 &&
      forall k :: 0 <= lo <= k < |layers| ==>
        Backwarded(views0[k], ViewOf(layers[k]), handed[k + 1], LearningRate, Ok(handed[k]))
    }

    /** One pass of the loop of `backward`: layer i maps what it is handed to the
        next entry of handed, or fails and leaves handed as it was. */
    method BackwardFrom(i: nat, output: Volume, ghost views0: seq<View>, ghost handed: seq<Volume>)
      returns (step: Result<Volume>, ghost handed': seq<Volume>)
      requires Valid() && Distinct() && i < |layers| && BackwardModelled(layers[i], output)
      requires BackwardedAbove(views0, handed, i + 1) && handed[i + 1] == output
      requires forall k :: 0 <= k <= i ==> ViewOf(layers[k]) == views0[k]
      modifies Objects(layers[i])
      ensures Valid()
      ensures handed' == if step.Ok? then handed[i := step.value] else handed
      ensures step.Ok? ==> BackwardedAbove(views0, handed', i)
      ensures step.Err? ==>
        BackwardedAbove(views0, handed', i + 1) &&
        Backwarded(views0[i], ViewOf(layers[i]), output, LearningRate, step)
      ensures forall k :: 0 <= k < i ==> ViewOf(layers[k]) == views0[k]
    {
      step := BackwardAt(i, output);
      handed' := if step.Ok? then handed[i := step.value] else handed;
    }

    /** `backward`: handed[i + 1] is what layer i is handed, handed[|layers|] being the
        gradient, and layers reached to |layers| - 1, run last to first, each map
        handed[i + 1] to handed[i] at learning rate 0.1. The pass stops at layer
        reached - 1 when it fails, whose error is the result, or (modelled false) when
        the model does not cover its index condition; the layers below the stop are
        untouched. An empty network returns the gradient. */
    method Backward(gradient: Volume) returns (r: Result<Volume>, ghost handed: seq<Volume>, ghost reached: nat,
                                               ghost modelled: bool)
      requires Valid() && Distinct()
      modifies Repr()
      ensures Valid() && layers == old(layers) && verbose == old(verbose)
      ensures |handed| == |layers| + 1 && handed[|layers|] == gradient && reached <= |layers|
      ensures forall i :: reached <= i < |layers| ==>
        Backwarded(old(Views())[i], ViewOf(layers[i]), handed[i + 1], LearningRate, Ok(handed[i]))
      ensures forall i :: 0 <= i < reached - 1 ==> ViewOf(layers[i]) == old(Views())[i]
      ensures modelled && r.Ok? ==> reached == 0 && r.value == handed[0]
      ensures modelled && r.Err? ==>
        reached >= 1 &&
        Backwarded(old(Views())[reached - 1], ViewOf(layers[reached - 1]), handed[reached], LearningRate, r)
      ensures !modelled ==>
        reached >= 1 && ViewOf(layers[reached - 1]) == old(Views())[reached - 1] &&
        !BackwardModelled(layers[reached - 1], handed[reached])
      ensures (forall i :: 0 <= i < |layers| ==> !layers[i].Conv?) ==> modelled
      ensures |layers| == 0 ==> r == Ok(gradient)
    {
      var output := gradient;
      var n := |layers|;
      ghost var views0 := Views();
      handed, modelled := seq(n + 1, _ => gradient), true;
      var i: int := n - 1;
      while i >= 0
        invariant -1 <= i < n && |handed| == n + 1 && handed[n] == gradient && output == handed[i + 1]
        invariant Valid()
        invariant BackwardedAbove(views0, handed, i + 1)
        invariant forall k :: 0 <= k <= i ==> ViewOf(layers[k]) == views0[k]
      {
        var l := layers[i];
        assert Objects(l) <= Repr();
        if !BackwardModelled(l, output) {
          modelled, reached := false, i + 1;
          return Ok(output), handed, reached, modelled;
        }
        var step;
        step, handed := BackwardFrom(i, output, views0, handed);
        if step.Err? {
          reached := i + 1;
          return step, handed, reached, modelled;
        }
        output := step.value;
        i := i - 1;
      }
      reached := 0;
      r := Ok(output);
    }
  }
}
