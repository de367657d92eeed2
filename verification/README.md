# Neural_Network_API in Dafny

This project models the core of a small Java neural-network engine built from first
principles. The engine has two parallel stacks:

- the `data` / `layers` / `core` stack works on a flat-buffer `Tensor` with a shape
  (`src/data/Tensor.java`), a fully-connected `DenseTensor` layer, a convolutional
  `Conv` layer and the `NN` network;
- the `cnn` stack works on raw `double[][][]` arrays, with its own small `Tensor`
  class, `DenseLayer`, `ConvLayer`, `PoolLayer`, `FlattenLayer`, the helpers in
  `Utils`, the activation functions and the `CNN` network.

Each layer has a `forward` pass that caches what its `backward` pass needs, and a
`backward` pass that returns the gradient for the previous layer and updates its own
parameters by one gradient-descent step in the same call. A network threads a value
through its layers in order on `forward`, and a gradient through them in reverse on
`backward`, with the fixed learning rate 0.1.

## How the model is built

- Java `double` is `real`; `double[][]` and `double[][][]` are nested sequences.
  Java's truncating `int` division is written out (`JavaInt.Div`), because Dafny's `/`
  is Euclidean.
- Every exception the code can raise becomes an `Err` of a `Result`, in the order the
  code raises them, except those listed under "Left out" below: an index out of range or of the wrong arity, a negative array
  size, a size mismatch, an invalid output size, a division by zero, or an
  unsupported operation (the base class `forward` and `backward`).
- Objects whose fields the Java code assigns are Dafny classes with `modifies`
  clauses: both tensor classes, every layer and both networks. Each layer method is
  proved against a pure function or predicate of the old state and the inputs.
  Its loops are separate methods, one per loop level, each proved against the same
  functions.
- The layer base classes are a closed datatype over the layer classes. A network
  method states, for every layer, how the pass changed it: a snapshot `View` of the
  layer's fields before and after is related by the same predicate as the layer's
  own method.
- Random initial values are arbitrary values within the stated range, where the
  code states one.
- `sigmoid` and the `Math.exp` it calls have no closed form over `real`. The
  sigmoid is a parameter of the cnn Dense layer, and its derivative is y·(1 − y) on
  the cached output, as the code writes it.

## Where the documented design and the code differ

The model follows the code in each of these places.

- `src/layers/Conv.java:177-179` SETS each input-gradient cell, so a cell keeps the
  last kernel product written to it instead of the sum of all of them
  (`ConvTensor.InputGradient`). `src/cnn/ConvLayer.java:198-199` does sum them
  (`CnnConv.InputGradient`).
- Both conv layers write `output[k][oy][ox]` inside the channel loop, so the output
  is the last channel's activated window, not the sum over channels
  (`ConvTensor.Outputs`, `ConvMath.LastChannelDecides`).
- `kernelChannels` is never assigned in either conv layer, so it stays 0. A freshly
  built layer therefore reads no input channel and never updates a kernel
  (`ConvTensor.ForwardAfterConstruction`, `CnnConv.ForwardAfterConstruction`).
- `src/cnn/DenseLayer.java:94-97` updates a weight before multiplying it into the
  returned gradient. The returned gradient therefore uses the UPDATED weights
  (`CnnDense.PropagatedAfterUpdate`, `CnnDense.UpdatedPropagationDiffers`).
  `src/layers/DenseTensor.java:98-102` reads each weight before its update.
- A channel mismatch in `src/cnn/ConvLayer.java:61-64` is not an error. The layer
  scans the smaller of kernelChannels and the PREVIOUS input's channel count
  (`CnnConv.ScannedChannels`).
- The pool layer writes only into output channel 0, and only at cells whose
  coordinates are multiples of the stride. The window origin is the output cell
  itself, not scaled by the stride (`Pool.PoolOutput`, `Pool.PoolCellIsMax`).
- The only flatten layer is `src/cnn/FlattenLayer.java`, on arrays.

## Model

| member | source | states |
|---|---|---|
| Activation.Relu | src/cnn/Activation.java:11-13 | relu(x) = max(0, x): at least 0, at least x, and equal to one of the two |
| Activation.ReluDerivative | src/cnn/Activation.java:15-17 | the slope is 1 exactly when x > 0 and 0 exactly when x <= 0 (so 0 at 0) |
| Activation.DerivativeSigmoid | src/cnn/Activation.java:7-9 | the sigmoid slope taken on the output y: at most 1/4, equal to 1/4 exactly at y = 1/2, and non-negative for y in [0, 1] |
| Activation.DerivativeTanh | src/cnn/Activation.java:23-25 | the tanh slope taken on the output y: at most 1, equal to 1 exactly at y = 0, and non-negative for y in [-1, 1] |
| Activation.ReluIdempotent | src/cnn/Activation.java:11-13 | applying relu twice is applying it once |
| Activation.ReluDerivativeAtOutput | src/cnn/Activation.java:11-17 | the relu slope is the same taken at the input or at the output, so gating a gradient by the output is gating it by the input |
| Activation.ReluMonotone | src/cnn/Activation.java:11-13 | relu is monotone |
| Activation.SigmoidSlopeMax | src/cnn/Activation.java:7-9 | y(1 - y) is at most 1/4, and equals 1/4 only at y = 1/2 |
| Activation.SigmoidSlopeNonNegative | src/cnn/Activation.java:7-9 | y(1 - y) >= 0 over the sigmoid's range [0, 1] |
| Activation.TanhSlopeMax | src/cnn/Activation.java:23-25 | 1 - y² is at most 1, and equals 1 only at y = 0 |
| Activation.TanhSlopeNonNegative | src/cnn/Activation.java:23-25 | 1 - y² >= 0 over tanh's range [-1, 1] |
| JavaInt.Div | src/layers/Conv.java:82-83 | Java's `/` on ints truncates toward zero: the remainder a − q·b is smaller than the divisor in size and is zero or has the numerator's sign |
| JavaInt.DivNonNegative | src/layers/Conv.java:82-83 | for a non-negative numerator and positive divisor Java's `/` agrees with floor division |
| JavaInt.DivSmallNegative | src/layers/Conv.java:82-83 | a negative numerator smaller in size than the divisor truncates to 0, not -1 |
| JavaInt.OutputSize | src/layers/Conv.java:82-83 | the output-size formula (H - k + 2·padding) / stride + 1: its value for a fitting kernel, 1 for a slightly too large one, at most 0 beyond that |
| JavaInt.OutputSizeTruncates | src/cnn/ConvLayer.java:78-79 | H = 2, kH = 3, stride 2 gives an output size of 1, where floor division would give 0 |
| JavaInt.LastWindowFits | src/layers/Conv.java:82-83 | with stride >= 1, padding 0 and a kernel that fits, there is at least one window and the last one ends inside the input |
| Shapes.ProductNonNegative | src/data/Tensor.java:15-18 | the element count of a shape with non-negative dimensions is non-negative |
| Shapes.ProductSnoc | src/data/Tensor.java:15-18 | one more dimension on the right multiplies the element count by it |
| Shapes.OffsetBounds | src/data/Tensor.java:58-65 | an in-range index has its row-major offset inside the buffer of product(shape) cells |
| Shapes.OffsetInjective | src/data/Tensor.java:58-65 | distinct in-range indices have distinct row-major offsets |
| Shapes.OffsetStep | src/data/Tensor.java:60-63 | one iteration of the stride loop from the last dimension to the first extends the offset by one dimension on the left |
| Tensors.Zeros | src/data/Tensor.java:12-23 | a fresh tensor has product(shape) cells, all 0, and the given shape |
| Tensors.FlatIndex | src/data/Tensor.java:52-63 | the flat index fails exactly on an arity mismatch (IllegalArgumentException) or a rank recorded larger than the shape; with the rank current it is the row-major offset |
| Tensors.Lookup | src/data/Tensor.java:52-66 | `get` refuses an index of the wrong length (IllegalArgumentException) before reading; every other failure is a read outside the buffer; a success returns a cell of the buffer |
| Tensors.Store | src/data/Tensor.java:69-83 | `set` fails exactly where `get` fails, with the same exception; on success the buffer keeps its length and `get` at that index returns the stored value |
| Tensors.Increment | src/data/Tensor.java:86-100 | `inc` fails exactly where `get` fails, with the same exception; on success the buffer keeps its length and `get` at that index returns the old value plus v |
| Tensors.LookupInRange | src/data/Tensor.java:52-66 | an in-range index of a well-formed tensor is read without failure, at its row-major offset |
| Tensors.StoreThenLookup | src/data/Tensor.java:52-83 | `set` then `get` at the same index returns the value stored, and the buffer keeps its length |
| Tensors.StoreFrame | src/data/Tensor.java:69-83 | `set` changes one cell: every other in-range index reads as before |
| Tensors.IncrementOne | src/data/Tensor.java:86-100 | `inc` adds v to the addressed cell and leaves every other in-range index as it was |
| Tensors.StaleRankAliases | src/data/Tensor.java:106-108 | after `reshape` to a larger rank the stale rank drives the stride loop, so two distinct indices read the same cell |
| Tensors.ShapesAndAccess | src/data/Tensor.java:52-66 | the buffer 1..12 read as [3,2,2] gives 6 at (1,0,1), and 8 after a same-rank reshape to [2,3,2] |
| Tensors.Put | src/data/Tensor.java:69-83 | `set` at an in-range index: that element becomes v, every other element stays, the shape stays |
| Tensors.AddAt | src/data/Tensor.java:86-100 | `inc` at an in-range index: v is added to that element, every other element stays |
| Tensors.AtIsLookup | src/data/Tensor.java:52-66 | the value-level element access agrees with `get` on a tensor whose rank is current |
| DataTensor.Tensor.constructor | src/data/Tensor.java:12-23 | the shape-only constructor allocates product(shape) zero cells and records the rank |
| DataTensor.Tensor.WithData | src/data/Tensor.java:25-30 | the (shape, data) constructor adopts the caller's array and zeroes it, so the caller's values are lost |
| DataTensor.Tensor.FlatIndex | src/data/Tensor.java:53-63 | the arity check and stride loop compute Tensors.FlatIndex |
| DataTensor.Tensor.Get | src/data/Tensor.java:52-66 | `get` returns Tensors.Lookup of the buffer, including its failures |
| DataTensor.Tensor.Set | src/data/Tensor.java:69-83 | on success the buffer is the old one with the addressed cell replaced; on failure nothing changes |
| DataTensor.Tensor.Inc | src/data/Tensor.java:86-100 | on success the addressed cell grows by the value; on failure nothing changes |
| DataTensor.Tensor.SetData | src/data/Tensor.java:102-104 | the buffer becomes the given array; shape and rank stay |
| DataTensor.Tensor.Reshape | src/data/Tensor.java:106-108 | only the shape changes; the recorded rank and the buffer stay |
| DataTensor.Tensor.InitZero | src/data/Tensor.java:111-115 | every cell becomes 0 |
| DataTensor.Tensor.InitConstant | src/data/Tensor.java:118-122 | every cell becomes the value |
| DataTensor.Tensor.InitRandom | src/data/Tensor.java:125-129 | every cell becomes a draw in [-0.5, 0.5) |
| DataTensor.Tensor.InitXavier | src/data/Tensor.java:140-145 | every cell becomes a draw in [-x, x) with x² = 6 / (in + out), so x > 0 and the draw never reaches x |
| DataTensor.Tensor.Map | src/data/Tensor.java:156-160 | every cell x becomes f(x), in place |
| DataTensor.Tensor.Subtract | src/data/Tensor.java:162-172 | fails with a size mismatch exactly when the buffers differ in length; otherwise a fresh tensor of this shape holding the cell-wise differences |
| DataTensor.Tensor.RawData | src/data/Tensor.java:174-176 | a copy of the buffer |
| DataTensor.Tensor.Size | src/data/Tensor.java:178-180 | the d-th dimension, or an out-of-bounds failure exactly when d is not a dimension |
| DataTensor.Tensor.Shape | src/data/Tensor.java:182-184 | a copy of the shape |
| DataTensor.SetThenGet | src/data/Tensor.java:52-83 | a caller's `set` then `get` at an in-range index returns the value stored |
| CnnTensor.CellOf | src/cnn/Tensor.java:24-33 | the cell `get`/`set`/`inc` address: an arity failure, a read past the index array when the recorded rank is larger, else Σ index[d]·shape[d] |
| CnnTensor.Lookup | src/cnn/Tensor.java:24-36 | `get` refuses an index of the wrong length first; every other failure is an out-of-bounds read; a success returns a cell of the buffer |
| CnnTensor.Tensor.constructor | src/cnn/Tensor.java:11-15 | the shape-only constructor allocates an EMPTY buffer whatever the shape |
| CnnTensor.Tensor.WithData | src/cnn/Tensor.java:17-21 | the (data, shape) constructor adopts the array as is |
| CnnTensor.Tensor.Cell | src/cnn/Tensor.java:29-33 | the weighted-sum loop computes CellOf |
| CnnTensor.Tensor.Get | src/cnn/Tensor.java:24-36 | `get` returns the addressed element or the failure CellOf or the buffer read raises |
| CnnTensor.Tensor.Set | src/cnn/Tensor.java:39-51 | on success exactly the addressed cell changes; on failure nothing does |
| CnnTensor.Tensor.Inc | src/cnn/Tensor.java:54-66 | on success the addressed cell grows by the value; on failure nothing changes |
| CnnTensor.Tensor.Reshape | src/cnn/Tensor.java:69-71 | only the shape changes |
| CnnTensor.Tensor.Randomise | src/cnn/Tensor.java:73-77 | every cell becomes a draw in [0, 1) |
| CnnTensor.Tensor.Map | src/cnn/Tensor.java:79-83 | every cell x becomes f(x), in place |
| CnnTensor.Tensor.RawData | src/cnn/Tensor.java:85-87 | a copy of the buffer |
| CnnTensor.Tensor.Size | src/cnn/Tensor.java:89-91 | the d-th dimension, or an out-of-bounds failure exactly when d is not a dimension |
| CnnTensor.ShapeOnlyHasNoCells | src/cnn/Tensor.java:11-36 | a tensor built from its shape alone has no cell: every `get` fails |
| CnnTensor.WeightedSumCollides | src/cnn/Tensor.java:29-35 | in a 2×2 tensor the indices (0,1) and (1,0) both address cell 2, where the row-major offsets would be 1 and 2 |
| CnnTensor.CollidingWrites | src/cnn/Tensor.java:39-51 | of two writes through colliding indices only the second survives |
| CnnUtils.ElementProduct | src/cnn/Utils.java:18-30 | `matrixElementProduct` succeeds exactly when A is non-empty and both matrices cover \|A\| × \|A[0]\| cells; otherwise it fails out of bounds |
| CnnUtils.Frobenius | src/cnn/Utils.java:18-30 | the element-wise product sum of two matrices; a matrix taken against itself never gives a negative sum |
| CnnUtils.FrobeniusSymmetric | src/cnn/Utils.java:18-30 | the element product is symmetric in its two matrices |
| CnnUtils.FrobeniusZero | src/cnn/Utils.java:18-30 | against a zero matrix the element product is 0 |
| CnnUtils.FrobeniusPrefix | src/cnn/Utils.java:18-30 | the element product reads only the first rows × cols cells of each matrix |
| CnnUtils.MatrixElementProduct | src/cnn/Utils.java:18-30 | the running-sum loops compute ElementProduct |
| CnnUtils.ZeroMatrix | src/cnn/Utils.java:33-41 | fails with a negative-size failure exactly when a dimension is negative; otherwise a rows × cols matrix of zeros |
| CnnUtils.Window | src/cnn/Utils.java:58-62 | the copied window holds M[h + top][w + left] in every cell except column 0, which keeps 0 |
| CnnUtils.SubMatrix | src/cnn/Utils.java:44-65 | an invalid-shape failure when the shape or the padding does not have two entries; on success a shape[0] × shape[1] matrix whose column 0 is 0 and whose cell (h, w), w ≥ 1, is M[h + padding[0]][w + padding[1]] |
| CnnUtils.GetSubMatrix | src/cnn/Utils.java:44-65 | the argument checks in order, then the copy loops starting at column 1, compute SubMatrix |
| ConvMath.PaddingFreeWindowsFit | src/cnn/ConvLayer.java:78-79 | with padding 0, a positive stride and a kernel no larger than the input, there is an output row and every window the output-size formula admits lies inside the input |
| ConvMath.KernelLargerThanInput | src/cnn/ConvLayer.java:78-79 | because `/` truncates, a kernel larger than the input by less than the stride still yields one output row, and that row's window reads past the input |
| ConvMath.RowDotReadsOneChannel | src/cnn/ConvLayer.java:106-112 | a kernel row of the window reads only channel c of the input |
| ConvMath.WindowReadsOneChannel | src/cnn/ConvLayer.java:103-112 | the window sum for channel c reads only channel c of the input |
| ConvMath.LastChannelDecides | src/cnn/ConvLayer.java:100-114 | every channel pass overwrites the output cell, so two inputs that agree on the last scanned channel give the same output whatever their other channels hold |
| ConvMath.OverwriteExample | src/layers/Conv.java:104-118 | two channels of ones under a 1×1 kernel of ones and bias 0 give relu(1) = 1, where a sum over channels would give 2 |
| ConvMath.NoColumnsNoGradient | src/cnn/ConvLayer.java:210-236 | with no output column every bias gradient and every kernel gradient is 0, whatever the number of rows |
| ConvMath.ClippedSums | src/cnn/ConvLayer.java:210-236 | the bias and kernel gradients over a negative output size equal those over the size clipped to 0 (the loops do not run) |
| ConvMath.BiasStepExample | src/cnn/ConvLayer.java:210-246 | an all-ones gated gradient on a 2×2 output sums to 4, so at learning rate 0.1 a zero bias moves to -0.4 |
| ConvMath.NoColumnsNoSpread | src/cnn/ConvLayer.java:191-204 | with no output column nothing flows back to the input |
| ConvMath.ClippedBackflow | src/cnn/ConvLayer.java:184-205 | the input gradient over a negative output size equals the one over the size clipped to 0 |
| ConvMath.SetKeepsLastProduct | src/layers/Conv.java:177-179 | with `set` instead of `+=`, the centre cell of a 2×2 all-ones gradient under a 2×2 all-ones kernel keeps only the last product, 1, where accumulating gives 4 |
| ConvTensor.ZeroVolume | src/layers/Conv.java:98 | `new Tensor(new int[]{a, b, c})` is a well-formed a × b × c tensor of zeros |
| ConvTensor.RowSum | src/layers/Conv.java:111-115 | the kx loop adds kernel row ky's products: RowDot of the input and kernel k over channel c |
| ConvTensor.WindowSum | src/layers/Conv.java:107-116 | `sum` is the window product of kernel k over channel c at (oy, ox) |
| ConvTensor.Set3 | src/data/Tensor.java:69-83 | `set` at an in-range rank-3 index: that cell becomes v, every other read stays |
| ConvTensor.RowPass | src/layers/Conv.java:106-119 | output row oy of plane k becomes relu(window + bias) of channel c; every other cell stays |
| ConvTensor.ChannelPass | src/layers/Conv.java:105-120 | the pass over channel c overwrites plane k with that channel's activated window sums |
| ConvTensor.KernelPass | src/layers/Conv.java:104-121 | after the channel loop plane k holds the LAST channel's pass, or stays as it was when there is no channel |
| ConvTensor.Outputs | src/layers/Conv.java:98-122 | every output cell (k, oy, ox) is Response: the last channel's relu(window + bias), or 0 with no channel to scan |
| ConvTensor.Gated | src/layers/Conv.java:159 | `delta_O.map(derivativeReLU)` keeps the shape and gates every cell to its relu slope |
| ConvTensor.GatedReads | src/layers/Conv.java:159 | every read of the gated gradient is 1 exactly where the gradient was positive and 0 elsewhere |
| ConvTensor.Inc1 | src/layers/Conv.java:229 | `inc` at an in-range rank-1 index adds v to that cell only |
| ConvTensor.Inc4 | src/layers/Conv.java:235 | `inc` at an in-range rank-4 index adds v to that cell only |
| ConvTensor.Stamp | src/layers/Conv.java:174-185 | every input-gradient cell the kernel placed at (h, w) covers is SET to its product; the others stay |
| ConvTensor.StampRow | src/layers/Conv.java:171-186 | after the w loop a covered cell holds the product of the last column covering it |
| ConvTensor.StampPlane | src/layers/Conv.java:170-187 | after the h loop a covered cell holds the product of the last covering position |
| ConvTensor.StampChannel | src/layers/Conv.java:167-188 | every kernel writes the same cells, so the last kernel's products remain |
| ConvTensor.InputGradient | src/layers/Conv.java:154-189 | delta_I is [cIn, hIn, wIn] and each cell holds LastWrite, the last product set there, never a sum |
| ConvTensor.BiasGradient | src/layers/Conv.java:194-199 | delta_B[k] is the sum of plane k of the gated gradient |
| ConvTensor.GradientRowSum | src/layers/Conv.java:213-218 | one output row's part of delta_F_sum |
| ConvTensor.KernelCellGradient | src/layers/Conv.java:210-220 | delta_F[k][c][y][x] is Σ input(c, h·s + y − p, w·s + x − p) · gated(k, h, w) |
| ConvTensor.KernelGradient | src/layers/Conv.java:202-223 | delta_F[k] is a cIn × kh × kw array of those gradients |
| ConvTensor.ParameterGradients | src/layers/Conv.java:192-224 | delta_B and delta_F for every kernel |
| ConvTensor.ShiftPlane | src/layers/Conv.java:232-239 | each weight of kernel k, channel c moves by −delta_F·lr; every other weight stays |
| ConvTensor.ShiftKernel | src/layers/Conv.java:231-240 | the first kernelChannels channels of kernel k move; every other weight stays |
| ConvTensor.Descend | src/layers/Conv.java:227-241 | bias k moves by −delta_B[k]·lr and channels c < kernelChannels of kernel k by −delta_F·lr; nothing else changes |
| ConvTensor.SpreadInput | src/layers/Conv.java:154-189 | delta_I over an output with no position is all zeros; otherwise the last-write gradient |
| ConvTensor.Gradients | src/layers/Conv.java:192-224 | the parameter gradients over an output with no position are zero sums |
| ConvTensor.Train | src/layers/Conv.java:192-241 | the biases and the first kernelChannels kernel channels take one gradient step computed from the parameters before the step |
| ConvTensor.Step | src/layers/Conv.java:154-243 | the success path of `backward`: the last-write input gradient, the bias step and the kernel step |
| ConvTensor.Learn | src/layers/Conv.java:133-244 | `backward` on values: a rank below 3 or a negative size fails before anything changes; a `get` with the wrong arity fails after the gradient is gated and before any parameter moves; otherwise the input gradient, bias step and kernel step of Step |
| ConvTensor.ZeroRateKeepsParameters | src/layers/Conv.java:226-240 | with learning rate 0 a `backward` leaves every bias and every kernel weight reading as before |
| ConvTensor.Conv.constructor | src/layers/Conv.java:30-60 | stride 1, padding 0, output size 0, an empty cached input, zero biases, kernels [kernelNum, channels, kh, kw]; kernelChannels is never assigned and stays 0 |
| ConvTensor.Conv.Init | src/layers/Conv.java:57-60 | the biases become zero, the kernels keep their shape and take arbitrary values; nothing else changes |
| ConvTensor.Conv.Forward | src/layers/Conv.java:62-130 | caches the input; fails at a rank below 2, a zero stride, a rank below 3, or an output size or kernel count below 1 (in that order); otherwise returns a kernelNum × hOut × wOut tensor whose every cell is the last channel's relu(window + bias) |
| ConvTensor.Conv.Backward | src/layers/Conv.java:133-244 | Learn on the cached input and the current parameters; only the parameters change |
| ConvTensor.Conv.SetStride | src/layers/Conv.java:266-268 | sets the stride; nothing else changes |
| ConvTensor.Conv.SetPadding | src/layers/Conv.java:270-272 | sets the padding; nothing else changes |
| ConvTensor.ForwardAfterConstruction | src/layers/Conv.java:30-130 | a freshly constructed layer scans no input channel: a first `forward` on a rank below 3 fails, and a successful one returns all zeros whatever the input |
| CnnConv.ZeroBank | src/cnn/ConvLayer.java:37 | `new double[kn][depth][kh][kw]` has that shape and every weight 0 |
| CnnConv.Write4 | src/cnn/ConvLayer.java:251 | writing one weight keeps the shape and every other weight |
| CnnConv.ScannedChannels | src/cnn/ConvLayer.java:59-64 | `forward` scans kernelChannels channels when the input has that many, otherwise at most kernelChannels and the previous input's channel count |
| CnnConv.RowSum | src/cnn/ConvLayer.java:107-111 | the kx loop adds kernel row ky's products: RowDot of the input and kernel k over channel c |
| CnnConv.WindowSum | src/cnn/ConvLayer.java:103-112 | `sum` is the window product of kernel k over channel c at (oy, ox) |
| CnnConv.RowPass | src/cnn/ConvLayer.java:102-115 | output row oy of plane k becomes relu(window + bias) of channel c; every other cell stays |
| CnnConv.ChannelPass | src/cnn/ConvLayer.java:101-116 | the pass over channel c overwrites plane k with that channel's activated window sums |
| CnnConv.KernelPass | src/cnn/ConvLayer.java:100-117 | after the channel loop plane k holds the LAST channel's pass, or stays as it was when there is no channel |
| CnnConv.Outputs | src/cnn/ConvLayer.java:94-118 | every output cell (k, oy, ox) is Response: the last channel's relu(window + bias), or 0 with no channel to scan |
| CnnConv.GateRow | src/cnn/ConvLayer.java:176-178 | the w loop gates cells (c, h, w < wOut) through reluDerivative; nothing else changes |
| CnnConv.GatePlane | src/cnn/ConvLayer.java:175-179 | the h loop gates plane c over hOut × wOut; nothing else changes |
| CnnConv.GateInPlace | src/cnn/ConvLayer.java:174-180 | delta_O is gated in place over the kn × hOut × wOut region only; its shape and every other cell stay |
| CnnConv.AddStamp | src/cnn/ConvLayer.java:195-201 | every cell covered by the kernel placed at (h, w) GROWS by its rotated-kernel product; the others stay |
| CnnConv.AddRow | src/cnn/ConvLayer.java:192-202 | after the w loop a cell has grown by the contributions of every column w < wOut |
| CnnConv.AddPlane | src/cnn/ConvLayer.java:191-203 | after the h loop a cell has grown by the contributions of every gradient position |
| CnnConv.ChannelGradient | src/cnn/ConvLayer.java:185-204 | channel c of delta_I, reset by zeroMatrix, holds the SUM of every kernel's contributions (Backflow) |
| CnnConv.InputGradient | src/cnn/ConvLayer.java:166-205 | delta_I is cIn × hIn × wIn and each cell holds Backflow, the sum of all products that reach it |
| CnnConv.BiasGradient | src/cnn/ConvLayer.java:210-215 | delta_B[k] is the sum of plane k of the gated gradient |
| CnnConv.GradientRowSum | src/cnn/ConvLayer.java:229-234 | one output row's part of delta_F_sum |
| CnnConv.KernelCellGradient | src/cnn/ConvLayer.java:226-236 | delta_F[k][c][y][x] is Σ input[c][h·s + y − p][w·s + x − p] · gated[k][h][w] |
| CnnConv.KernelGradient | src/cnn/ConvLayer.java:218-239 | delta_F[k] is a cIn × kh × kw array of those gradients |
| CnnConv.ParameterGradients | src/cnn/ConvLayer.java:208-242 | delta_B and delta_F for every kernel |
| CnnConv.ShiftPlane | src/cnn/ConvLayer.java:249-253 | each weight of kernel k, channel c moves by −delta_F·lr; every other weight stays |
| CnnConv.ShiftKernel | src/cnn/ConvLayer.java:248-254 | the first kernelChannels channels of kernel k move; every other weight stays |
| CnnConv.Descend | src/cnn/ConvLayer.java:245-255 | bias k moves by −delta_B[k]·lr and channels c < kernelChannels of kernel k by −delta_F·lr; nothing else changes |
| CnnConv.SpreadInput | src/cnn/ConvLayer.java:166-205 | delta_I over an output with no position is all zeros; otherwise the summed Backflow |
| CnnConv.Gradients | src/cnn/ConvLayer.java:208-242 | the parameter gradients over an output with no position are zero sums |
| CnnConv.Train | src/cnn/ConvLayer.java:208-255 | the biases and the first kernelChannels kernel channels take one gradient step computed from the parameters before the step |
| CnnConv.Learn | src/cnn/ConvLayer.java:129-258 | `backward` on values: an input with no channel or no row fails before anything changes; otherwise delta_O is gated in place over the last output's region, the input gradient is the summed Backflow, and the biases and first kernelChannels channels take one gradient step |
| CnnConv.ZeroRateKeepsParameters | src/cnn/ConvLayer.java:244-255 | with learning rate 0 a `backward` leaves the biases as they were and every kernel weight reading as before |
| CnnConv.NoisePlane | src/cnn/ConvLayer.java:49-53 | weights of kernel k, channel c take arbitrary values; every other weight stays |
| CnnConv.Initialise | src/cnn/ConvLayer.java:43-56 | every bias is 0 and only the channels c < kernelChannels change |
| CnnConv.ConvLayer.constructor | src/cnn/ConvLayer.java:22-41 | stride 1, padding 0, output size 0, an empty cached input; kernelChannels stays 0 so every weight and bias is 0 |
| CnnConv.ConvLayer.Init | src/cnn/ConvLayer.java:43-56 | the biases become 0, only the first kernelChannels channels of each kernel change, and no other field changes |
| CnnConv.ConvLayer.Forward | src/cnn/ConvLayer.java:58-126 | caches the input; fails at no channel, a zero stride, fewer than two rows in channel 0 (the width comes from row 1), an output or kernel count below 1, or a read outside the input; otherwise every output cell is the Response of the ScannedChannels channels |
| CnnConv.ConvLayer.Backward | src/cnn/ConvLayer.java:129-258 | Learn on the cached input and the current parameters; only the parameters change |
| CnnConv.ConvLayer.SetStride | src/cnn/ConvLayer.java:276-278 | sets the stride; nothing else changes |
| CnnConv.ConvLayer.SetPadding | src/cnn/ConvLayer.java:280-282 | sets the padding; nothing else changes |
| CnnConv.ForwardAfterConstruction | src/cnn/ConvLayer.java:22-126 | a freshly constructed layer scans no channel: a first `forward` on an input with no channel fails, and a successful one returns all zeros |
| CnnConv.BackwardBeforeForward | src/cnn/ConvLayer.java:129-133 | before any `forward` the cached input is empty, so `backward` fails at `input_tensor[0]` and leaves the gradient as it was |
| CnnDense.Respond | src/cnn/DenseLayer.java:42-77 | `forward` succeeds exactly when `input[0][0]` exists and has previousLayerSize entries; a missing row is an index error, a wrong length a size mismatch; the result is a 1 × 1 × size array |
| CnnDense.Gates | src/cnn/DenseLayer.java:88-89 | one gradient δ_n = delta[n] · σ'(y_n) per completed neuron |
| CnnDense.Reached | src/cnn/DenseLayer.java:86-89 | the neuron loop completes every neuron, or stops at the first one whose `delta[0][0][neuron]` cannot be read |
| CnnDense.Step | src/cnn/DenseLayer.java:91-94 | a stepped weight row keeps its length |
| CnnDense.Trained | src/cnn/DenseLayer.java:86-102 | the trained weights keep the shape of the weights |
| CnnDense.TrainedBiases | src/cnn/DenseLayer.java:101 | the trained biases keep their length |
| CnnDense.Propagated | src/cnn/DenseLayer.java:83-97 | the returned gradient has one entry per input |
| CnnDense.UpdateRow | src/cnn/DenseLayer.java:91-98 | the row takes its step, and every entry of newDelta grows by δ times the UPDATED weight |
| CnnDense.NeuronStep | src/cnn/DenseLayer.java:86-102 | one more neuron: its row and bias take their step, the other rows stay, and its updated row is added into the propagated gradient |
| CnnDense.PropagatedStep | src/cnn/DenseLayer.java:94-97 | adding neuron n's updated row, times its delta, into the gradient propagated through n neurons gives the one through n + 1 |
| CnnDense.ShiftedColumnSum | src/cnn/DenseLayer.java:94-97 | propagating through weights that each moved by −lr·(δ·x_i) equals the old-weight propagation minus the shift |
| CnnDense.ShiftIsSquares | src/cnn/DenseLayer.java:94-97 | the shift is lr · x_i · Σ δ² |
| CnnDense.PropagatedAfterUpdate | src/cnn/DenseLayer.java:86-102 | the returned gradient differs from the pre-update one at input i by exactly lr · x_i · Σ δ² |
| CnnDense.TrainedColumn | src/cnn/DenseLayer.java:86-102 | column i of the trained weights: the completed rows moved, the others kept |
| CnnDense.PropagatedCell | src/cnn/DenseLayer.java:86-102 | one column of the returned gradient against the pre-update weights |
| CnnDense.SquareSumPositive | src/cnn/DenseLayer.java:86-102 | a sum of squared gradients with a non-zero term is positive |
| CnnDense.UpdatedPropagationDiffers | src/cnn/DenseLayer.java:94-97 | with a non-zero rate, input and gradient, the returned gradient is NOT the one the pre-update weights would give |
| CnnDense.UpdatedWeightExample | src/cnn/DenseLayer.java:94-97 | one neuron, weight 1, gradient 1, input 1, rate 0.1: the returned gradient is 0.9, not 1 |
| CnnDense.ZeroRateKeepsParameters | src/cnn/DenseLayer.java:94-101 | with a zero learning rate no weight or bias moves |
| CnnDense.DenseLayer.constructor | src/cnn/DenseLayer.java:12-15 | size and previousLayerSize as given, biases in [0, 1), weights in [−1, 1), zero caches of the right shape |
| CnnDense.DenseLayer.Init | src/cnn/DenseLayer.java:17-40 | new previousLayerSize, biases in [0, 1), weights in [−1, 1), zero caches; the size stays |
| CnnDense.DenseLayer.Forward | src/cnn/DenseLayer.java:42-77 | the result is Respond; the parameters stay; a success caches the input and the output, a failure caches nothing |
| CnnDense.DenseLayer.Backward | src/cnn/DenseLayer.java:79-108 | the caches stay; the completed neurons' rows and biases take their step and the result is the gradient through the updated weights, or an index error when the gradient runs out (those updates stay) |
| CnnDense.Train | src/cnn/DenseLayer.java:86-102 | the neuron loop: the neurons reached take their step and the gradient accumulates through their updated weights |
| CnnDense.TrainNeuron | src/cnn/DenseLayer.java:87-101 | one neuron's pass extends Trained, TrainedBiases and Propagated by one neuron |
| CnnDense.WeightedRow | src/cnn/DenseLayer.java:57-59 | the inner loop of `forward` computes Σ x[k]·w[k] |
| DenseTensor.LookupRank1 | src/data/Tensor.java:52-66 | `get(i)` on a rank-1 tensor is cell i, or an index error outside it |
| DenseTensor.Respond | src/layers/DenseTensor.java:54-84 | a successful `forward` is a [size] tensor of neuron outputs act(W·x + b) |
| DenseTensor.Gates | src/layers/DenseTensor.java:93-94 | one delta_I per completed neuron, with the derivative taken at the cached output |
| DenseTensor.Trained | src/layers/DenseTensor.java:96-103 | the trained weight buffer keeps its length |
| DenseTensor.TrainedBiases | src/layers/DenseTensor.java:106 | the trained bias buffer keeps its length |
| DenseTensor.Propagated | src/layers/DenseTensor.java:87-98 | new_delta is an [input_size] tensor |
| DenseTensor.PartlyPropagated | src/layers/DenseTensor.java:96-98 | new_delta part-way through a neuron is an [input_size] tensor |
| DenseTensor.PartlyStep | src/layers/DenseTensor.java:98 | one more input of neuron n: new_delta[i] gains delta_I·W[n, i] and nothing else changes |
| DenseTensor.RowStep | src/layers/DenseTensor.java:96-103 | one inner iteration reads W[n, i] while it still holds its initial value, adds its term into new_delta and then moves it by −lr·gradient |
| DenseTensor.TrainNeuron | src/layers/DenseTensor.java:90-107 | one neuron's pass extends Trained, TrainedBiases and Propagated by one neuron |
| DenseTensor.NeuronDelta | src/layers/DenseTensor.java:93-94 | delta_I of a neuron is the gradient cell times the derivative at the cached output; the read fails exactly at the first neuron past Completed, with an arity error on a gradient of another rank and an index error otherwise |
| DenseTensor.TrainedThroughStart | src/layers/DenseTensor.java:87-90 | before the neuron loop no weight or bias has moved and new_delta is all zeros |
| DenseTensor.BackwardStep | src/layers/DenseTensor.java:93-106 | one pass of the neuron loop takes the state after n neurons to the state after n + 1, or fails exactly at the first neuron past Completed and changes nothing |
| DenseTensor.TrainCompleted | src/layers/DenseTensor.java:90-107 | the neuron loop trains exactly the Completed neurons, accumulating new_delta through the weights as they were before the update, and stops early exactly when Completed falls short of size |
| DenseTensor.Learn | src/layers/DenseTensor.java:86-110 | `backward` on values: the completed neurons' weights and biases take their step, and the result is new_delta, an arity error on a gradient of another rank, or an index error on one with too few cells |
| DenseTensor.WeightedInput | src/layers/DenseTensor.java:63-65 | Σ input.get(k)·W[n, k], or the error the first failing `input.get` raises |
| DenseTensor.Completed | src/layers/DenseTensor.java:90-94 | `backward` completes all neurons, none on a gradient of another rank, or as many as the gradient has cells |
| DenseTensor.Cell2 | src/data/Tensor.java:86-100 | `inc` at (n, i) of a rank-2 tensor changes flat cell n·cols + i only |
| DenseTensor.Cell1 | src/data/Tensor.java:86-100 | `inc` at i of a rank-1 tensor changes cell i only |
| DenseTensor.TrainedStep | src/layers/DenseTensor.java:101-102 | one more weight updated: its cell moves from its initial value by −lr·g[n]·x[i] and no other cell changes |
| DenseTensor.RowDone | src/layers/DenseTensor.java:96-103 | a finished row is the next row not yet started |
| DenseTensor.BiasStep | src/layers/DenseTensor.java:106 | one more bias updated: cell n moves from its initial value by −lr·delta_I |
| DenseTensor.TrainedCell | src/layers/DenseTensor.java:90-107 | the update hits exactly the completed neurons' rows, each weight moving by −lr·delta_I[n]·input[i] |
| DenseTensor.ZeroRateKeepsParameters | src/layers/DenseTensor.java:102-106 | with learning rate 0 no weight or bias changes |
| DenseTensor.ForwardExample | src/layers/DenseTensor.java:54-84 | W = [[1, 2, 3], [−1, 0.5, 2]], b = [0.1, −0.2], x = [0.5, −1, 2] with identity activation give [4.6, 2.8] |
| DenseTensor.ForwardReluExample | src/layers/DenseTensor.java:54-84 | under ReLU, pre-activations 1, −3 and −1 give [1, 0, 0] |
| DenseTensor.BackwardExample | src/layers/DenseTensor.java:86-110 | a worked step: the returned gradient [0.6, 0.2, −0.2], weights [[0.99, 2.02, 2.96], [−0.98, 0.46, 2.08]], biases [0.08, −0.16] |
| DenseTensor.DenseTensor.constructor | src/layers/DenseTensor.java:20-27 | ReLU and its derivative, zero caches of shapes [size] and [input_size], parameters of shapes [size] and [size, input_size] |
| DenseTensor.DenseTensor.Init | src/layers/DenseTensor.java:29-52 | the new input size, fresh parameters of the layer's shape and zero caches; the activation stays |
| DenseTensor.DenseTensor.Forward | src/layers/DenseTensor.java:54-84 | the result is Respond; the parameters stay; a success caches the input and the output, a failure caches nothing |
| DenseTensor.DenseTensor.Backward | src/layers/DenseTensor.java:86-110 | Learn on the cached input and output and the current parameters; only the weights and biases change |
| DenseTensor.DenseTensor.SetActivationFunction | src/layers/DenseTensor.java:120-122 | replaces the activation and nothing else |
| DenseTensor.DenseTensor.SetActivationDerivative | src/layers/DenseTensor.java:128-130 | replaces the derivative and nothing else |
| DenseTensor.DenseTensor.SetBiases | src/layers/DenseTensor.java:136-138 | replaces the biases and nothing else |
| DenseTensor.DenseTensor.SetWeights | src/layers/DenseTensor.java:144-146 | replaces the weights and nothing else |
| Pool.Max | src/cnn/PoolLayer.java:47 | `Math.max(max, v)` is finite, at least v and the accumulator, and equal to one of them |
| Pool.RowScanIsMax | src/cnn/PoolLayer.java:42-49 | the row fold is the accumulator when no cell is in bounds, else at least every in-bounds cell and equal to one of them or the accumulator |
| Pool.WindowMaxIsMax | src/cnn/PoolLayer.java:38-50 | a window's `max` is −infinity exactly when it holds no in-bounds cell; otherwise at least each in-bounds cell and equal to one |
| Pool.ScanIsMax | src/cnn/PoolLayer.java:41-50 | the same after the first n window rows |
| Pool.Overwrite | src/cnn/PoolLayer.java:36-54 | after one feature map, the stride-grid cells of plane 0 hold that map's window maxima and the other cells keep their value |
| Pool.OverwriteRow | src/cnn/PoolLayer.java:37-53 | one row of Overwrite keeps its length |
| Pool.PoolOutput | src/cnn/PoolLayer.java:30-55 | the output is C × oh × ow; channels other than 0 and off-grid cells hold 0; each grid cell of channel 0 holds the LAST map's window maximum |
| Pool.PoolCellIsMax | src/cnn/PoolLayer.java:36-52 | a grid cell of a successful pass is at least each in-bounds cell of the last map's window at origin (y, x), not scaled by the stride, and equal to one |
| Pool.LastMapWins | src/cnn/PoolLayer.java:33-55 | processing a second map after a first leaves only the second's maxima |
| Pool.DefaultStrideWritesOneCell | src/cnn/PoolLayer.java:11-55 | with the default stride 2 a 2 × 2 pool over 4 × 4 gives a 2 × 2 output where only (0, 0) is a maximum and (1, 1) stays 0 |
| Pool.PoolForward | src/cnn/PoolLayer.java:18-71 | division by zero exactly when the first map has a row and the stride is 0; on success one output plane per feature map, and every plane after the first stays all zeros |
| Pool.PoolForwardOk | src/cnn/PoolLayer.java:18-71 | a successful non-empty pass had a readable first map, a non-zero stride, pool sides of at least 1 and an output no larger than the input |
| Pool.OutputWithin | src/cnn/PoolLayer.java:24-25 | with a positive stride and pool side, (h − p)/s + 1 ≤ h |
| Pool.ScanRow | src/cnn/PoolLayer.java:42-49 | the windowX loop folds the row, or fails at the first cell the ragged array lacks |
| Pool.ScanWindow | src/cnn/PoolLayer.java:38-50 | the window loops give WindowMax, or fail when the window cannot be read |
| Pool.PoolRow | src/cnn/PoolLayer.java:37-53 | the outX loop writes row oy's grid cells with their window maxima |
| Pool.MultipleIsRemainderZero | src/cnn/PoolLayer.java:36-37 | the cells the `+= stride` loops visit are exactly those with x % s == 0 |
| Pool.SkipOffGrid | src/cnn/PoolLayer.java:36-37 | between two consecutive visited cells there is none |
| Pool.PoolMap | src/cnn/PoolLayer.java:36-54 | the outY loop over one feature map is Overwrite, or the error the first unreadable window raises |
| Pool.PoolNext | src/cnn/PoolLayer.java:33-55 | one pass of the feature-map loop: plane 0 becomes what the first z + 1 maps leave, or the pass fails as unsupported when a pool side or the row width is zero, and otherwise fails with an index error only when some map cannot be read |
| Pool.PoolMaps | src/cnn/PoolLayer.java:33-55 | the loop over the feature maps is PoolOutput, or the error it raises |
| Pool.PoolLayer.constructor | src/cnn/PoolLayer.java:11-16 | pool sides as given, stride 2 |
| Pool.PoolLayer.Forward | src/cnn/PoolLayer.java:18-71 | the result is PoolForward on the layer's fields: an index error without a first row, a division by zero at stride 0, a negative size, an empty output, or the pooled output; nothing changes |
| Pool.PoolLayer.Backward | src/cnn/Layer.java:16-19 | `backward` is not overridden: it fails as unsupported |
| Pool.PoolLayer.SetStride | src/cnn/PoolLayer.java:73-75 | sets the stride; nothing else changes |
| Pool.PoolLayer.SetPoolHeight | src/cnn/PoolLayer.java:77-79 | sets the pool height; nothing else changes |
| Pool.PoolLayer.SetPoolWidth | src/cnn/PoolLayer.java:81-83 | sets the pool width; nothing else changes |
| Pool.SetThenGet | src/cnn/PoolLayer.java:73-95 | the setters and getters round-trip |
| Flatten.Index | src/cnn/FlattenLayer.java:33 | the index of an in-range cell lies in [0, C·H·W) |
| Flatten.IndexDecomposes | src/cnn/FlattenLayer.java:33 | the coordinates of a cell are read back from its index by division and remainder: the index map is one-to-one |
| Flatten.IndexOnto | src/cnn/FlattenLayer.java:33 | every position of [0, C·H·W) is the index of the cell its quotients name: the index map is onto |
| Flatten.Flattened | src/cnn/FlattenLayer.java:28-37 | the row has C·H·W cells and holds cell (z, y, x) at its index |
| Flatten.DecomposesEverywhere | src/cnn/FlattenLayer.java:33 | IndexDecomposes for every cell at once |
| Flatten.Unflattened | src/cnn/FlattenLayer.java:47-56 | a C × H × W volume whose cell (z, y, x) is read from its index |
| Flatten.RoundTrip | src/cnn/FlattenLayer.java:23-59 | unflattening a flattened box-shaped volume gives it back |
| Flatten.RoundTripFlat | src/cnn/FlattenLayer.java:23-59 | flattening an unflattened row gives back its first C·H·W cells |
| Flatten.Flatten3d | src/cnn/FlattenLayer.java:8-21 | `flatten_3d` succeeds exactly when the input has a first row and C·H·W ≥ 3, and then returns an empty vector (its shape array is all zeros); otherwise it fails with an index error |
| Flatten.FlatPrefix | src/cnn/FlattenLayer.java:28-37 | the partly built row has C·H·W cells |
| Flatten.FlatPrefixStep | src/cnn/FlattenLayer.java:33-34 | one more visited cell writes that cell at its index |
| Flatten.FlatPrefixFull | src/cnn/FlattenLayer.java:30-37 | after all cells of a readable volume the row is Flattened |
| Flatten.VolumePrefix | src/cnn/FlattenLayer.java:47-56 | the partly built volume is C × H × W |
| Flatten.VolumePrefixStep | src/cnn/FlattenLayer.java:53 | one more visited cell writes gradient entry k at the cell whose index is k |
| Flatten.VolumePrefixEnds | src/cnn/FlattenLayer.java:47-56 | before any cell the volume is zero; after all of them it is Unflattened |
| Flatten.CopyCells | src/cnn/FlattenLayer.java:30-37 | the loops of `forward` give Flattened, or an index error at the first plane the arrays lack cells of |
| Flatten.CopyPlane | src/cnn/FlattenLayer.java:31-36 | plane z is copied exactly when it is readable; otherwise an index error |
| Flatten.CopyRow | src/cnn/FlattenLayer.java:32-35 | row y of plane z is copied to its w positions |
| Flatten.FillRow | src/cnn/FlattenLayer.java:52-54 | the innermost loop of `backward` writes the next w gradient entries into row y of plane z, or fails when the row of the gradient runs out |
| Flatten.FillPlane | src/cnn/FlattenLayer.java:51-55 | the middle loop of `backward` fills plane z from the next H·W gradient entries, or fails when they run out |
| Flatten.BackwardUndoesForward | src/cnn/FlattenLayer.java:23-59 | handing the row `forward` returns back to `backward` with the recorded dimensions restores the input |
| Flatten.FlattenLayer.constructor | src/cnn/FlattenLayer.java:2-5 | the recorded dimensions start at 0 |
| Flatten.FlattenLayer.Forward | src/cnn/FlattenLayer.java:23-40 | records C, H and W, each before the read that may fail, then returns the [1][1][C·H·W] row, or an index error on a missing plane, row or cell |
| Flatten.FlattenLayer.Backward | src/cnn/FlattenLayer.java:42-59 | rebuilds the C × H × W volume from the gradient's single row, or fails when that row is missing or too short |
| Flatten.Restored | src/cnn/FlattenLayer.java:42-59 | on success a C × H × W volume whose cell (z, y, x) is entry z·H·W + y·W + x of the gradient's single row; the only failure is an index error, and only when C·H·W > 0 |
| Network.ForwardStep | src/layers/LayerTensor.java:15-18 | one layer's `forward`, dispatched on its kind: a Dense or Conv layer changes only its caches and returns what its own `forward` promises; the base class fails as unsupported |
| Network.BackwardStep | src/layers/LayerTensor.java:20-23 | one layer's `backward`, dispatched on its kind: only the parameters change, as the layer's own `backward` promises; the base class fails as unsupported |
| Network.FreshConvForwardModelled | src/layers/Conv.java:30-55 | a Conv layer as the constructor leaves it (kernelChannels 0) is modelled on every input |
| Network.NN.constructor | src/core/NN.java:16-18 | a network with no layer |
| Network.NN.AddLayer | src/core/NN.java:20-22 | appends the layer; nothing else changes |
| Network.NN.ForwardAt | src/core/NN.java:38 | layer i's `forward` changes that layer's caches only; every other layer keeps its state |
| Network.NN.BackwardAt | src/core/NN.java:47 | layer i's `backward` changes that layer's parameters only; every other layer keeps its state |
| Network.NN.ForwardFrom | src/core/NN.java:37-38 | one pass of the loop of `forward`: layer i maps the previous output to the next, changing its caches only; its output joins the trace, and the layers above are untouched |
| Network.NN.CachesOnlyAll | src/core/NN.java:30-39 | when every layer up to the stop changed its caches only and the layers above it did not change, no layer changed more than its caches |
| Network.NN.BackwardFrom | src/core/NN.java:46-47 | one pass of the loop of `backward`: layer i takes its step on what it is handed, the layers above keep theirs, and the layers below are untouched |
| Network.NN.Forward | src/core/NN.java:24-41 | the layers run in order, each on the previous one's output: every layer before the stop took the trace entry before it to the one after it, changing its caches only; an empty network returns the input; a failing layer's error is the result and the layers after it are untouched |
| Network.NN.Backward | src/core/NN.java:43-50 | the layers run from the last to the first with learning rate 0.1, each on the gradient the next one handed back: every layer passed took its step; an empty network returns the gradient; a failing layer's error is the result and the layers before it are untouched |
| CnnNetwork.ForwardStep | src/cnn/CNN.java:26-35 | one layer of the loop: a Dense layer handed a row of another width is re-initialised to that width first; every layer then runs its own `forward` |
| CnnNetwork.BackwardStep | src/cnn/CNN.java:43 | one layer's `backward`, dispatched on its kind; pooling and the base class fail as unsupported |
| CnnNetwork.DenseAdapts | src/cnn/CNN.java:27-34 | a Dense layer in the network fails only when there is no row to read, never with a size mismatch, and returns a 1 × 1 × size array |
| CnnNetwork.PoolingStopsBackward | src/cnn/Layer.java:16-19 | a pooling layer's `backward` fails and leaves the layer as it was |
| CnnNetwork.CNN.constructor | src/cnn/CNN.java:11-14 | no layer, verbose off |
| CnnNetwork.CNN.AddLayer | src/cnn/CNN.java:16-18 | appends the layer; verbose stays |
| CnnNetwork.CNN.SetVerbose | src/cnn/CNN.java:70-72 | sets the flag; the layers stay |
| CnnNetwork.CNN.ForwardAt | src/cnn/CNN.java:27-34 | layer i's step changes that layer only; every other layer keeps its state |
| CnnNetwork.CNN.BackwardAt | src/cnn/CNN.java:43 | layer i's `backward` changes that layer only; every other layer keeps its state |
| CnnNetwork.CNN.BackwardFrom | src/cnn/CNN.java:42-43 | one pass of the loop of `backward`: layer i takes its step on what it is handed, the layers above keep theirs, and the layers below are untouched |
| CnnNetwork.CNN.Forward | src/cnn/CNN.java:20-37 | the layers run in order, each on the previous one's output, with the Dense re-initialisation; an empty network returns the input; a failing layer's error is the result and the layers after it are untouched |
| CnnNetwork.CNN.Backward | src/cnn/CNN.java:39-46 | the layers run from the last to the first with learning rate 0.1, each on the gradient the next one handed back; an empty network returns the gradient; a failing layer's error is the result and the layers before it are untouched |

## Left out

- `tools.Activation`, `tools.Config` and `tools.Utils`, which the `layers` package imports, are not part of this model. Their `relu` and `derivativeReLU` are taken to behave as those of `src/cnn/Activation.java`.
- `src/cnn/Config.java` and the verbose flag: they only decide whether diagnostics are printed.
- Printing is left out: `display`, `displayKernels`, `displayFeatureMaps`, `listLayers`, and every `System.out` line inside the passes. None of them changes a value.
- `CsvReader`, the `Main` drivers and the tests are callers, not part of the core.
- Floating point: `double` is `real`, so rounding, infinities and NaN are not modelled.
- Java `int` overflow is not modelled: sizes and indices are unbounded integers.
- Random draws (`Math.random`, `nextGaussian`) are arbitrary values in the range the code gives them. `init_normal` and `init_he` draw unbounded Gaussian values, so after them every cell is arbitrary.
- `DenseTensor.DenseTensor.constructor`: `init` calls `randomise`, which `src/data/Tensor.java` does not declare. The parameters are therefore left arbitrary.
- Aliasing is not modelled. Layers hold their tensors and arrays as values that the methods reassign, so a caller keeping a reference to a cached input or a returned array does not see later writes. `backward` of both conv layers gates the CALLER's gradient array in place; this is returned as the ghost out-parameter `gated` instead.
- Null arrays and `null` layers are not modelled.
- `DataTensor.Tensor.constructor`: requires a non-negative product of the shape, since a constructor cannot return an error; the `NegativeArraySizeException` of a negative product is left out.
- `DenseTensor.DenseTensor.SetBiases`, `DenseTensor.DenseTensor.SetWeights`: accept only a tensor of the layer's own shape ([size] and [size, input_size]), because the layer keeps its parameter shapes as an invariant; under it `weights.size(0)` is `size`. Java stores any tensor, after which `forward` and `backward` fail at the first `get` or `inc` that the foreign shape refuses; that state is not modelled.
- `DenseTensor.DenseTensor.Forward`, `DenseTensor.DenseTensor.Backward`, `ConvTensor.Conv.Forward`, `ConvTensor.Conv.Backward`, `Network.NN.Forward`, `Network.NN.Backward`: the tensors handed to them carry no recorded rank and are read as if their rank were the length of their shape. A tensor reshaped to another rank before it is handed in (see `Tensors.StaleRankAliases`) strides over its stale rank in Java; that is not modelled at the layers.
- `ConvTensor.Conv.constructor`, `CnnConv.ConvLayer.constructor`, `CnnDense.DenseLayer.constructor`, `CnnDense.DenseLayer.Init`, `DenseTensor.DenseTensor.constructor`, `DenseTensor.DenseTensor.Init`: the sizes are natural numbers. A negative size, on which Java throws `NegativeArraySizeException` at the allocation (src/cnn/ConvLayer.java:37-38, src/cnn/DenseLayer.java:20-24), is not modelled, and neither is a shape with an even number of negative sizes, whose product `new Tensor` accepts, so that `new Conv(1, -1, -1, 1)` builds a layer in Java.
- `DataTensor.Tensor.InitXavier`: the square root `sqrt(6 / (in + out))` is passed in as a parameter, and `in + out <= 0` (an infinite or NaN scale) is not modelled.
- `sigmoid` and `tanh` of `src/cnn/Activation.java:3-5` and `:19-21` are not defined, since `Math.exp` has no closed form over `real`. The layers take the activation as a parameter; only the derivatives, written on the output, are defined and bounded.
- `ConvTensor.Conv.Forward`: requires every index the loops read to be in range (`ForwardFits`); the index exception a read outside the input raises inside the loops is not modelled. The errors raised before the loops are modelled.
- `ConvTensor.Conv.Backward`: requires every index its loops read or write to be in range (`BackwardFits`), except for a `get` with the wrong number of indices (`ArityFails`), which is modelled as an error.
- `CnnConv.ConvLayer.Backward`: requires every index its loops read or write to be in range (`BackwardFits`) once the cached input has a channel and a row.
- `Network.NN.Forward`: when a `Conv` layer's index condition does not hold for its input, the pass stops being modelled at that layer (the ghost result `modelled` is false). The model then says nothing about the result and that layer's state. `forward` on a network whose conv layers are as the constructor leaves them is always modelled.
- `Network.NN.Backward`: the same holds at a `Conv` layer whose `BackwardFits` fails; a network without a conv layer is always modelled.
- `CnnNetwork.CNN.Backward`: the pass stops being modelled at a `Conv` layer whose `BackwardFits` fails, as in `Network.NN.Backward`; a network without a conv layer is always modelled. Its `forward` is modelled on every input.
- `Network.NN.Forward`, `Network.NN.Backward`, `CnnNetwork.CNN.Forward` and `CnnNetwork.CNN.Backward` require the layers to be distinct objects. The same layer object added twice (which Java allows) is not modelled.
- `Pool.PoolLayer.Forward`: a pool side below 1 or an empty first row would store −infinity in a real output; that case is the error `Unsupported` here. `backward` of the pool layer is the base class's, which fails.
- The getters (`getStride`, `getPadding`, `getPoolHeight`, `getPoolWidth`, `getLastOutput`, `getWeights`, `getBiases` and the activation getters) are plain field reads with no contract of their own. `Pool.SetThenGet` states the pool ones.
