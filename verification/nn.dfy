/** The network over `data.Tensor` layers (src/core/NN.java): an ordered list of
    layers that `forward` runs first to last, each on the previous one's output, and
    `backward` last to first with learning rate 0.1. A Java exception thrown by a
    layer ends the pass and leaves the network; it is the Err result here. */
module Network {
  import opened Outcomes
  import opened Tensors
  import DenseTensor
  import ConvTensor
  import JavaInt
  import opened ConvMath

  /** The learning rate `backward` hands every layer. */
  const LearningRate: real := 0.1

  /** A layer as the list holds it: Java picks `forward` and `backward` by the
      object's class, and the base class LayerTensor throws
      UnsupportedOperationException from both. */
  datatype Layer =
    | Dense(dense: DenseTensor.DenseTensor)
    | Conv(conv: ConvTensor.Conv)
    | Base

  /** The objects a layer's methods may change. */
  function Objects(l: Layer): set<object>
  {
    match l
    case Dense(d) => {d}
    case Conv(c) => {c}
    case Base => {}
  }

  predicate LayerValid(l: Layer)
    reads Objects(l)
  {
    match l
    case Dense(d) => d.Valid()
    case Conv(c) => c.Valid()
    case Base => true
  }

  /** Every field of a layer object, as a value. */
  datatype View =
    | DenseView(size: nat, inputSize: nat, biases: Tensor, weights: Tensor, lastOutput: Tensor, lastInput: Tensor,
                activation: real -> real, derivative: real -> real)
    | ConvView(kernelNum: nat, kernelChannels: nat, kernelHeight: nat, kernelWidth: nat, kernels: Tensor,
               biases: Tensor, outputHeight: int, outputWidth: int, stride: int, padding: int, inputTensor: Tensor)
    | BaseView

  ghost function ViewOf(l: Layer): View
    reads Objects(l)
  {
    match l
    case Dense(d) =>
      DenseView(d.size, d.inputSize, d.biases, d.weights, d.lastOutput, d.lastInput, d.activation, d.derivative)
    case Conv(c) =>
      ConvView(c.kernelNum, c.kernelChannels, c.kernelHeight, c.kernelWidth, c.kernels, c.biases,
               c.outputHeight, c.outputWidth, c.stride, c.padding, c.inputTensor)
    case Base => BaseView
  }

  /** v1 differs from v0 at most in the caches `forward` writes. */
  ghost predicate CachesOnly(v0: View, v1: View)
  {
    match v0
    case DenseView(_, _, _, _, _, _, _, _) =>
      v1.DenseView? && v1 == v0.(lastOutput := v1.lastOutput, lastInput := v1.lastInput)
    case ConvView(_, _, _, _, _, _, _, _, _, _, _) =>
      v1.ConvView? && v1 == v0.(outputHeight := v1.outputHeight, outputWidth := v1.outputWidth, inputTensor := v1.inputTensor)
    case BaseView => v1 == v0
  }

  /** A layer that did not change changed its caches only. */
  lemma CachesOnlyReflexive(v: View)
    ensures CachesOnly(v, v)
  {
  }

  /** v1 differs from v0 at most in the parameters `backward` moves. */
  ghost predicate ParametersOnly(v0: View, v1: View)
  {
    match v0
    case DenseView(_, _, _, _, _, _, _, _) =>
      v1.DenseView? && v1 == v0.(weights := v1.weights, biases := v1.biases)
    case ConvView(_, _, _, _, _, _, _, _, _, _, _) =>
      v1.ConvView? && v1 == v0.(kernels := v1.kernels, biases := v1.biases)
    case BaseView => v1 == v0
  }

  /** The index condition this model puts on a Conv layer's `forward` (every read in
      range); the other layers take any input. */
  predicate ForwardModelled(l: Layer, x: Tensor)
    requires LayerValid(l)
    reads Objects(l)
  {
    match l
    case Conv(c) =>
      |x.shape| >= 3 && c.stride != 0 ==>
        ConvTensor.ForwardFits(x, c.kernels, c.kernelNum, c.kernelChannels,
          JavaInt.OutputSize(x.shape[1], c.kernelHeight, c.padding, c.stride),
          JavaInt.OutputSize(x.shape[2], c.kernelWidth, c.padding, c.stride), c.Frame())
    case _ => true
  }

  /** The same for `backward`, on the gradient the layer is handed. */
  predicate BackwardModelled(l: Layer, delta: Tensor)
    requires LayerValid(l)
    reads Objects(l)
  {
    match l
    case Conv(c) =>
      |c.inputTensor.shape| >= 3 ==>
        ConvTensor.BackwardFits(c.inputTensor, c.kernels, ConvTensor.Gated(delta), c.kernelNum, c.kernelChannels,
          c.outputHeight, c.outputWidth, c.Frame())
    case _ => true
  }

  /** A layer whose fields are v maps x to r by `forward`. */
  ghost predicate Forwarded(v: View, x: Tensor, r: Result<Tensor>)
  {
    match v
    case DenseView(size, inputSize, biases, weights, _, _, activation, _) =>
      DenseTensor.Parameters(weights, biases, size, inputSize) &&
      r == DenseTensor.Respond(weights, biases, activation, x, size, inputSize)
    case ConvView(kn, kc, kh, kw, kernels, biases, _, _, stride, padding, _) =>
      ConvTensor.Emitted(x, kernels, biases, kn, kc, Geometry(kh, kw, stride, padding), r)
    case BaseView => r == Err(Unsupported)
  }

  /** A layer whose fields were v0 and are now v1 maps delta to r by `backward` at
      learning rate lr. */
  ghost predicate Backwarded(v0: View, v1: View, delta: Tensor, lr: real, r: Result<Tensor>)
  {
    ParametersOnly(v0, v1) &&
    match v1
    case DenseView(size, inputSize, biases, weights, lastOutput, lastInput, _, derivative) =>
      DenseTensor.Learned(v0.weights, v0.biases, weights, biases, lastInput, lastOutput, derivative,
                          size, inputSize, delta, lr, r)
    case ConvView(kn, kc, kh, kw, kernels, biases, hOut, wOut, stride, padding, inputTensor) =>
      exists gated :: ConvTensor.Learned(inputTensor, v0.kernels, v0.biases, delta, kn, kc, hOut, wOut, lr,
                                         Geometry(kh, kw, stride, padding), r, gated, kernels, biases)
    case BaseView => r == Err(Unsupported)
  }

  /** `layer.forward(output)`, dispatched on the layer's class. */
  method ForwardStep(l: Layer, x: Tensor) returns (r: Result<Tensor>)
    requires LayerValid(l) && ForwardModelled(l, x)
    modifies Objects(l)
    ensures LayerValid(l) && CachesOnly(old(ViewOf(l)), ViewOf(l))
    ensures Forwarded(ViewOf(l), x, r)
  {
    match l
    case Dense(d) =>
      r := d.Forward(x);
    case Conv(c) =>
      r := c.Forward(x);
    case Base =>
      r := Err(Unsupported);
  }

  /** `layers.get(i).backward(output, lr)`, dispatched on the layer's class. */
  method BackwardStep(l: Layer, delta: Tensor, lr: real) returns (r: Result<Tensor>)
    requires LayerValid(l) && BackwardModelled(l, delta)
    modifies Objects(l)
    ensures LayerValid(l)
    ensures Backwarded(old(ViewOf(l)), ViewOf(l), delta, lr, r)
  {
    match l
    case Dense(d) =>
      r := d.Backward(delta, lr);
    case Conv(c) =>
      var gated;
      r, gated := c.Backward(delta, lr);
    case Base =>
      r := Err(Unsupported);
  }

  /** A Conv layer's kernelChannels is 0, the only value the Java class ever gives it. */
  predicate FreshView(v: View)
  {
    v.ConvView? ==> v.kernelChannels == 0
  }

  ghost predicate Fresh(l: Layer)
    reads Objects(l)
  {
    FreshView(ViewOf(l))
  }

  /** A fresh layer reads no input channel, so its `forward` is modelled on every
      input. */
  lemma FreshConvForwardModelled(l: Layer, x: Tensor)
    requires LayerValid(l) && Fresh(l)
    ensures ForwardModelled(l, x)
  {
  }

  class NN {
    var layers: seq<Layer>

    constructor ()
      ensures layers == []
    {
      layers := [];
    }

    /** `addLayer`: appends the layer; nothing else changes. */
    method AddLayer(layer: Layer)
      modifies this
      ensures layers == old(layers) + [layer]
    {
      layers := layers + [layer];
    }

    /** The objects of all layers. */
    ghost function Repr(): set<object>
      reads this
    {
      set i, o | 0 <= i < |layers| && o in Objects(layers[i]) :: o
    }

    ghost predicate Valid()
      reads this, Repr()
    {
      forall i :: 0 <= i < |layers| ==> LayerValid(layers[i])
    }

    /** No layer object is in the list twice. */
    ghost predicate Distinct()
      reads this
    {
      forall i, j :: 0 <= i < j < |layers| ==> Objects(layers[i]) !! Objects(layers[j])
    }

    /** Every Conv layer has kernelChannels 0. */
    ghost predicate FreshConvs()
      reads this, Repr()
    {
      forall i :: 0 <= i < |layers| ==> Fresh(layers[i])
    }

    /** Runs layer i forward; the other layers keep every field. */
    method ForwardAt(i: nat, x: Tensor) returns (r: Result<Tensor>)
      requires Valid() && Distinct() && i < |layers| && ForwardModelled(layers[i], x)
      modifies Objects(layers[i])
      ensures Valid()
      ensures CachesOnly(old(ViewOf(layers[i])), ViewOf(layers[i])) && Forwarded(ViewOf(layers[i]), x, r)
      ensures forall k :: 0 <= k < |layers| && k != i ==> ViewOf(layers[k]) == old(ViewOf(layers[k]))
    {
      r := ForwardStep(layers[i], x);
      forall k | 0 <= k < |layers| && k != i
        ensures ViewOf(layers[k]) == old(ViewOf(layers[k])) && LayerValid(layers[k])
      {
        assert Objects(layers[k]) !! Objects(layers[i]);
      }
    }

    /** Runs layer i backward at the network's learning rate; the other layers keep
        every field. */
    method BackwardAt(i: nat, delta: Tensor) returns (r: Result<Tensor>)
      requires Valid() && Distinct() && i < |layers| && BackwardModelled(layers[i], delta)
      modifies Objects(layers[i])
      ensures Valid()
      ensures Backwarded(old(ViewOf(layers[i])), ViewOf(layers[i]), delta, LearningRate, r)
      ensures forall k :: 0 <= k < |layers| && k != i ==> ViewOf(layers[k]) == old(ViewOf(layers[k]))
    {
      r := BackwardStep(layers[i], delta, LearningRate);
      forall k | 0 <= k < |layers| && k != i
        ensures ViewOf(layers[k]) == old(ViewOf(layers[k])) && LayerValid(layers[k])
      {
        assert Objects(layers[k]) !! Objects(layers[i]);
      }
    }

    /** Layers 0 .. hi - 1, whose fields were views0, have each mapped trace[j] to
        trace[j + 1] by `forward`, changing their caches only. */
    ghost predicate ForwardedBelow(views0: seq<View>, trace: seq<Tensor>, hi: int)
      reads this, Repr()
    {
      |views0| == |layers| && 0 <= hi < |trace| && hi <= |layers| &&
      forall j :: 0 <= j < hi ==>
        Forwarded(ViewOf(layers[j]), trace[j], Ok(trace[j + 1])) && CachesOnly(views0[j], ViewOf(layers[j]))
    }

    /** When layers below hi changed their caches only, layer hi too, and the layers
        above it not at all, then no layer changed more than its caches. */
    lemma CachesOnlyAll(views0: seq<View>, trace: seq<Tensor>, hi: int)
      requires ForwardedBelow(views0, trace, hi)
      requires hi < |layers| ==> CachesOnly(views0[hi], ViewOf(layers[hi]))
      requires forall j :: hi < j < |layers| ==> ViewOf(layers[j]) == views0[j]
      ensures forall j :: 0 <= j < |layers| ==> CachesOnly(views0[j], ViewOf(layers[j]))
    {
      forall j | 0 <= j < |layers|
        ensures CachesOnly(views0[j], ViewOf(layers[j]))
      {
        if j > hi {
          CachesOnlyReflexive(views0[j]);
        }
      }
    }

    /** One pass of the loop of `forward`: layer i maps the last trace entry to a new
        one, or fails and leaves the trace as it was. */
    method ForwardFrom(i: nat, x: Tensor, ghost views0: seq<View>, ghost trace: seq<Tensor>)
      returns (step: Result<Tensor>, ghost trace': seq<Tensor>)
      requires Valid() && Distinct() && i < |layers| && ForwardModelled(layers[i], x)
      requires ForwardedBelow(views0, trace, i) && |trace| == i + 1 && trace[i] == x
      requires forall j :: i <= j < |layers| ==> ViewOf(layers[j]) == views0[j]
      modifies Objects(layers[i])
      ensures Valid()
      ensures trace' == if step.Ok? then trace + [step.value] else trace
      ensures step.Ok? ==> ForwardedBelow(views0, trace', i + 1)
      ensures step.Err? ==>
        ForwardedBelow(views0, trace', i) &&
        Forwarded(ViewOf(layers[i]), x, step) && CachesOnly(views0[i], ViewOf(layers[i]))
      ensures forall j :: i < j < |layers| ==> ViewOf(layers[j]) == views0[j]
    {
      step := ForwardAt(i, x);
      trace' := if step.Ok? then trace + [step.value] else trace;
    }

    /** `forward`: trace[i] is what layer i is handed, starting from the input, and
        layer i maps it to trace[i + 1]. The pass stops at the first layer that
        fails, whose error is the result, or (modelled false) at the first layer
        whose index condition the model does not cover; layers after the stop are
        untouched, and no layer changes more than its caches. An empty network
        returns its input. */
    method Forward(input: Tensor) returns (r: Result<Tensor>, ghost trace: seq<Tensor>, ghost modelled: bool)
      requires Valid() && Distinct()
      modifies Repr()
      ensures Valid() && layers == old(layers)
      ensures 1 <= |trace| <= |layers| + 1 && trace[0] == input
      ensures forall i :: 0 <= i < |trace| - 1 ==> Forwarded(ViewOf(layers[i]), trace[i], Ok(trace[i + 1]))
      ensures forall i :: 0 <= i < |layers| ==> CachesOnly(old(Views())[i], ViewOf(layers[i]))
      ensures forall i :: |trace| <= i < |layers| ==> ViewOf(layers[i]) == old(Views())[i]
      ensures modelled && r.Ok? ==> |trace| == |layers| + 1 && r.value == trace[|layers|]
      ensures modelled && r.Err? ==> |trace| <= |layers| && Forwarded(ViewOf(layers[|trace| - 1]), trace[|trace| - 1], r)
      ensures !modelled ==>
        |trace| <= |layers| && ViewOf(layers[|trace| - 1]) == old(Views())[|trace| - 1] &&
        !ForwardModelled(layers[|trace| - 1], trace[|trace| - 1])
      ensures old(FreshConvs()) ==> modelled
      ensures |layers| == 0 ==> r == Ok(input)
    {
      var output := input;
      ghost var views0 := Views();
      trace, modelled := [input], true;
      for i := 0 to |layers|
        invariant |trace| == i + 1 && trace[0] == input && output == trace[i]
        invariant Valid()
        invariant ForwardedBelow(views0, trace, i)
        invariant forall j :: i <= j < |layers| ==> ViewOf(layers[j]) == views0[j]
      {
        var l := layers[i];
        assert Objects(l) <= Repr();
        if !ForwardModelled(l, output) {
          if old(FreshConvs()) {
            assert FreshView(old(Views())[i]);
            assert Fresh(l);
            FreshConvForwardModelled(l, output);
          }
          modelled := false;
          CachesOnlyReflexive(views0[i]);
          CachesOnlyAll(views0, trace, i);
          return Ok(output), trace, modelled;
        }
        var step;
        step, trace := ForwardFrom(i, output, views0, trace);
        if step.Err? {
          CachesOnlyAll(views0, trace, i);
          return step, trace, modelled;
        }
        output := step.value;
      }
      CachesOnlyAll(views0, trace, |layers|);
      r := Ok(output);
    }

    /** The fields of every layer, as values. */
    ghost function Views(): (vs: seq<View>)
      reads this, Repr()
      ensures |vs| == |layers| && forall k :: 0 <= k < |layers| ==> vs[k] == ViewOf(layers[k])
    {
      seq(|layers|, k requires 0 <= k < |layers| reads this, Repr() => ViewOf(layers[k]))
    }

    /** Layers lo .. |layers| - 1, whose fields were views0, have each mapped
        handed[k + 1] to handed[k] by `backward`. */
    ghost predicate BackwardedAbove(views0: seq<View>, handed: seq<Tensor>, lo: int)
      reads this, Repr()
    {
      |views0| == |layers| && |handed| == |layers| + 1 &&
      forall k :: 0 <= lo <= k < |layers| ==>
        Backwarded(views0[k], ViewOf(layers[k]), handed[k + 1], LearningRate, Ok(handed[k]))
    }

    /** One pass of the loop of `backward`: layer i maps what it is handed to the
        next entry of handed, or fails and leaves handed as it was. */
    method BackwardFrom(i: nat, output: Tensor, ghost views0: seq<View>, ghost handed: seq<Tensor>)
      returns (step: Result<Tensor>, ghost handed': seq<Tensor>)
      requires Valid() && Distinct() && i < |layers| && BackwardModelled(layers[i], output)
      requires BackwardedAbove(views0, handed, i + 1) && handed[i + 1] == output
      requires forall k :: 0 <= k <= i ==> ViewOf(layers[k]) == views0[k]
      modifies Objects(layers[i])
      ensures Valid()
      ensures handed' == if step.Ok? then handed[i := step.value] else handed
      ensures step.Ok? ==> BackwardedAbove(views0, handed', i)
      ensures step.Err? ==>
        BackwardedAbove(views0, handed', i + 1) &&
        Backwarded(views0[i], ViewOf(layers[i]), output, LearningRate, step)
      ensures forall k :: 0 <= k < i ==> ViewOf(layers[k]) == views0[k]
    {
      step := BackwardAt(i, output);
      handed' := if step.Ok? then handed[i := step.value] else handed;
    }

    /** `backward`: handed[i + 1] is what layer i is handed, handed[|layers|] being the
        gradient, and layers reached to |layers| - 1, run last to first, each map
        handed[i + 1] to handed[i] at learning rate 0.1, their parameters moving from
        the ones they held before the pass. The pass stops at layer reached - 1 when
        it fails, whose error is the result, or (modelled false) when the model does
        not cover its index condition; the layers below the stop are untouched. An
        empty network returns the gradient. */
    method Backward(gradient: Tensor) returns (r: Result<Tensor>, ghost handed: seq<Tensor>, ghost reached: nat,
                                               ghost modelled: bool)
      requires Valid() && Distinct()
      modifies Repr()
      ensures Valid() && layers == old(layers)
      ensures |handed| == |layers| + 1 && handed[|layers|] == gradient && reached <= |layers|
      ensures forall i :: reached <= i < |layers| ==>
        Backwarded(old(Views())[i], ViewOf(layers[i]), handed[i + 1], LearningRate, Ok(handed[i]))
      ensures forall i :: 0 <= i < reached - 1 ==> ViewOf(layers[i]) == old(Views())[i]
      ensures modelled && r.Ok? ==> reached == 0 && r.value == handed[0]
      ensures modelled && r.Err? ==>
        reached >= 1 &&
        Backwarded(old(Views())[reached - 1], ViewOf(layers[reached - 1]), handed[reached], LearningRate, r)
      ensures !modelled ==>
        reached >= 1 && ViewOf(layers[reached - 1]) == old(Views())[reached - 1] &&
        !BackwardModelled(layers[reached - 1], handed[reached])
      ensures (forall i :: 0 <= i < |layers| ==> !layers[i].Conv?) ==> modelled
      ensures |layers| == 0 ==> r == Ok(gradient)
    {
      var output := gradient;
      var n := |layers|;
      ghost var views0 := Views();
      handed, modelled := seq(n + 1, _ => gradient), true;
      var i: int := n - 1;
      while i >= 0
        invariant -1 <= i < n && |handed| == n + 1 && handed[n] == gradient && output == handed[i + 1]
        invariant Valid()
        invariant BackwardedAbove(views0, handed, i + 1)
        invariant forall k :: 0 <= k <= i ==> ViewOf(layers[k]) == views0[k]
      {
        var l := layers[i];
        assert Objects(l) <= Repr();
        if !BackwardModelled(l, output) {
          assert layers[i].Conv?;
          modelled, reached := false, i + 1;
          return Ok(output), handed, reached, modelled;
        }
        var step;
        step, handed := BackwardFrom(i, output, views0, handed);
        if step.Err? {
          reached := i + 1;
          return step, handed, reached, modelled;
        }
        output := step.value;
        i := i - 1;
      }
      reached := 0;
      r := Ok(output);
    }
  }
}
