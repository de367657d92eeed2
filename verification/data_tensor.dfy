/** `data.Tensor`: a flat buffer of reals updated in place, a shape, and the rank
    recorded when the tensor was built. */
module DataTensor {
  import opened Outcomes
  import opened Shapes
  import Tensors

  class Tensor {
    var data: array<real>
    var shape: seq<int>
    var dim: nat

    /** The abstract value: shape and buffer contents. */
    ghost function Value(): Tensors.Tensor
      reads this, data
    {
      Tensors.Tensor(shape, data[..])
    }

    /** Shape-only constructor: a zero buffer of product(shape) cells. Nothing checks
        the sign of the dimensions; only a negative product would fail the allocation. */
    constructor (shape: seq<int>)
      requires Product(shape) >= 0
      ensures this.shape == shape && dim == |shape| && fresh(data)
      ensures data.Length == Product(shape)
      ensures forall i :: 0 <= i < data.Length ==> data[i] == 0.0
    {
      var size := 1;
      for i := 0 to |shape|
        invariant size == Product(shape[..i])
      {
        assert shape[..i + 1] == shape[..i] + [shape[i]];
        ProductSnoc(shape[..i], shape[i]);
        size := size * shape[i];
      }
      assert shape[..|shape|] == shape;
      data := new real[size](_ => 0.0);
      this.shape := shape;
      dim := |shape|;
    }

    /** `(shape, data)` constructor: adopts the caller's array, then zeroes it, so the
        values the caller put there are lost (the caller sees the zeros too). */
    constructor WithData(shape: seq<int>, d: array<real>)
      modifies d
      ensures this.shape == shape && dim == |shape| && data == d
      ensures forall i :: 0 <= i < d.Length ==> d[i] == 0.0
    {
      data := d;
      this.shape := shape;
      dim := |shape|;
      new;
      InitZero();
    }

    /** The flat index of `index`: arity check, then the stride loop from the last
        recorded dimension to the first. */
    method FlatIndex(index: seq<int>) returns (r: Result<int>)
      ensures r == Tensors.FlatIndex(shape, dim, index)
    {
      if |index| != |shape| {
        return Err(IndexArity);
      }
      if dim > |shape| {
        return Err(IndexOutOfBounds);
      }
      var realI := 0;
      var stride := 1;
      var d := dim;
      while d > 0
        invariant 0 <= d <= dim
        invariant realI == Offset(shape[d..dim], index[d..dim])
        invariant stride == Product(shape[d..dim])
      {
        OffsetStep(shape, index, d, dim);
        assert shape[d - 1..dim][1..] == shape[d..dim];
        d := d - 1;
        realI := realI + index[d] * stride;
        stride := stride * shape[d];
      }
      assert shape[0..dim] == shape[..dim] && index[0..dim] == index[..dim];
      return Ok(realI);
    }

    /** `get`: the addressed element, or the exception Java raises. */
    method Get(index: seq<int>) returns (r: Result<real>)
      ensures r == Tensors.Lookup(shape, dim, data[..], index)
    {
      var o := FlatIndex(index);
      if o.Err? {
        return Err(o.error);
      }
      if !(0 <= o.value < data.Length) {
        return Err(IndexOutOfBounds);
      }
      return Ok(data[o.value]);
    }

    /** `set`: on success the buffer is the old one with the addressed cell replaced;
        on failure nothing changes. */
    method Set(value: real, index: seq<int>) returns (s: Status)
      modifies data
      ensures var st := Tensors.Store(shape, dim, old(data[..]), index, value);
        if st.Ok? then s == Done && data[..] == st.value
        else s == Failed(st.error) && data[..] == old(data[..])
    {
      var o := FlatIndex(index);
      if o.Err? {
        return Failed(o.error);
      }
      if !(0 <= o.value < data.Length) {
        return Failed(IndexOutOfBounds);
      }
      data[o.value] := value;
      return Done;
    }

    /** `inc`: on success the addressed cell grows by `value`; on failure nothing changes. */
    method Inc(value: real, index: seq<int>) returns (s: Status)
      modifies data
      ensures var st := Tensors.Increment(shape, dim, old(data[..]), index, value);
        if st.Ok? then s == Done && data[..] == st.value
        else s == Failed(st.error) && data[..] == old(data[..])
    {
      var o := FlatIndex(index);
      if o.Err? {
        return Failed(o.error);
      }
      if !(0 <= o.value < data.Length) {
        return Failed(IndexOutOfBounds);
      }
      data[o.value] := data[o.value] + value;
      return Done;
    }

    /** `set_data`: adopts the given array as the buffer; shape and rank stay. */
    method SetData(d: array<real>)
      modifies this
      ensures data == d && shape == old(shape) && dim == old(dim)
    {
      data := d;
    }

    /** `reshape`: replaces the shape only; neither the element count nor the
        recorded rank is checked or updated. */
    method Reshape(newShape: seq<int>)
      modifies this`shape
      ensures shape == newShape
    {
      shape := newShape;
    }

    /** `init_zero`: every cell becomes 0. */
    method InitZero()
      modifies data
      ensures forall i :: 0 <= i < data.Length ==> data[i] == 0.0
    {
      for i := 0 to data.Length
        invariant forall j :: 0 <= j < i ==> data[j] == 0.0
      {
        data[i] := 0.0;
      }
    }

    /** `init_constant`: every cell becomes `value`. */
    method InitConstant(value: real)
      modifies data
      ensures forall i :: 0 <= i < data.Length ==> data[i] == value
    {
      for i := 0 to data.Length
        invariant forall j :: 0 <= j < i ==> data[j] == value
      {
        data[i] := value;
      }
    }

    /** `init_random`: every cell becomes a uniform draw shifted into [-0.5, 0.5);
        each draw of the generator is an arbitrary value in [0, 1). */
    method InitRandom()
      modifies data
      ensures forall i :: 0 <= i < data.Length ==> -0.5 <= data[i] < 0.5
    {
      for i := 0 to data.Length
        invariant forall j :: 0 <= j < i ==> -0.5 <= data[j] < 0.5
      {
        var u :| 0.0 <= u < 1.0;
        data[i] := u - 0.5;
      }
    }

    /** `init_xavier`: every cell becomes a uniform draw in [-x, x) where x is the
        square root of 6 / (in + out), passed in as `x`. */
    method InitXavier(fanIn: int, fanOut: int, x: real)
      requires fanIn + fanOut > 0 && x >= 0.0 && x * x == 6.0 / (fanIn + fanOut) as real
      modifies data
      ensures forall i :: 0 <= i < data.Length ==> -x <= data[i] < x
    {
      assert x > 0.0;
      for i := 0 to data.Length
        invariant forall j :: 0 <= j < i ==> -x <= data[j] < x
      {
        var u :| 0.0 <= u < 1.0;
        assert (u * 2.0 - 1.0) * x < x by {
          assert (u * 2.0 - 1.0) * x == x - (1.0 - u) * 2.0 * x;
          assert (1.0 - u) * 2.0 * x > 0.0;
        }
        data[i] := (u * 2.0 - 1.0) * x;
      }
    }

    /** `map`: every cell x becomes f(x), in place. */
    method Map(f: real -> real)
      modifies data
      ensures forall i :: 0 <= i < data.Length ==> data[i] == f(old(data[i]))
    {
      for i := 0 to data.Length
        invariant forall j :: 0 <= j < i ==> data[j] == f(old(data[j]))
        invariant forall j :: i <= j < data.Length ==> data[j] == old(data[j])
      {
        data[i] := f(data[i]);
      }
    }

    /** `subtract`: fails when the buffers differ in length; otherwise a new tensor
        of this shape whose cells are the differences. Neither operand changes. */
    method Subtract(other: Tensor) returns (r: Result<Tensor>)
      ensures r.Err? <==> other.data.Length != data.Length
      ensures r.Err? ==> r.error == SizeMismatch
      ensures r.Ok? ==> fresh(r.value) && fresh(r.value.data)
      ensures r.Ok? ==> r.value.shape == shape && r.value.dim == |shape|
      ensures r.Ok? ==> r.value.data.Length == data.Length
      ensures r.Ok? ==> forall i :: 0 <= i < data.Length ==> r.value.data[i] == data[i] - other.data[i]
    {
      if other.data.Length != data.Length {
        return Err(SizeMismatch);
      }
      var buffer := new real[data.Length];
      var result := new Tensor.WithData(shape, buffer);
      for i := 0 to data.Length
        invariant result.data == buffer && result.shape == shape && result.dim == |shape|
        invariant forall j :: 0 <= j < i ==> buffer[j] == data[j] - other.data[j]
      {
        buffer[i] := data[i] - other.data[i];
      }
      return Ok(result);
    }

    /** `raw_data`: a copy of the buffer. */
    method RawData() returns (r: seq<real>)
      ensures |r| == data.Length && forall i :: 0 <= i < |r| ==> r[i] == data[i]
    {
      r := data[..];
    }

    /** `size(d)`: the d-th dimension, or an out-of-bounds failure. */
    method Size(d: int) returns (r: Result<int>)
      ensures r.Ok? <==> 0 <= d < |shape|
      ensures r.Ok? ==> r.value == shape[d]
      ensures r.Err? ==> r.error == IndexOutOfBounds
    {
      if 0 <= d < |shape| {
        return Ok(shape[d]);
      }
      return Err(IndexOutOfBounds);
    }

    /** `shape()`: a copy of the shape. */
    method Shape() returns (r: seq<int>)
      ensures r == shape
    {
      r := shape;
    }
  }

  /** What a caller of `set` followed by `get` at the same index observes. */
  method SetThenGet(t: Tensor, index: seq<int>, v: real) returns (r: Result<real>)
    requires InRange(t.shape, index) && t.dim == |t.shape| && t.data.Length == Product(t.shape)
    modifies t.data
    ensures r == Ok(v)
  {
    var s := t.Set(v, index);
    Tensors.LookupInRange(t.shape, old(t.data[..]), index);
    r := t.Get(index);
  }
}
