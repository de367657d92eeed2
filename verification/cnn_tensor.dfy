/** `cnn.Tensor`: a flat buffer addressed by the weighted sum of index and shape
    (not a row-major offset, so distinct indices can share a cell). */
module CnnTensor {
  import opened Outcomes
  import opened Shapes

  /** Where `get`/`set`/`inc` land: the arity check, then Σ index[d]·shape[d] over the
      recorded rank (a rank beyond the index length reads past the index array). */
  function CellOf(shape: seq<int>, dim: nat, index: seq<int>): (r: Result<int>)
    ensures |index| != |shape| ==> r == Err(IndexArity)
    ensures |index| == |shape| && dim > |shape| ==> r == Err(IndexOutOfBounds)
    ensures |index| == |shape| && dim <= |shape| ==> r == Ok(WeightedSum(shape, index, dim))
  {
    if |index| != |shape| then Err(IndexArity)
    else if dim > |shape| then Err(IndexOutOfBounds)
    else Ok(WeightedSum(shape, index, dim))
  }

  /** The element `get` returns, or why it throws: an index of the wrong length is
      refused first, a recorded rank beyond it reads past the index array, and any
      other failure is a read outside the buffer. */
  function Lookup(shape: seq<int>, dim: nat, buf: seq<real>, index: seq<int>): (r: Result<real>)
    ensures |index| != |shape| ==> r == Err(IndexArity)
    ensures |index| == |shape| && r.Err? ==> r.error == IndexOutOfBounds
    ensures r.Ok? ==> r.value in buf
  {
    match CellOf(shape, dim, index)
    case Err(e) => Err(e)
    case Ok(o) => if 0 <= o < |buf| then Ok(buf[o]) else Err(IndexOutOfBounds)
  }

  class Tensor {
    var data: array<real>
    var shape: seq<int>
    var dim: nat

    /** Shape-only constructor: the buffer is EMPTY whatever the shape. */
    constructor (shape: seq<int>)
      ensures this.shape == shape && dim == |shape| && fresh(data) && data.Length == 0
    {
      data := new real[0];
      this.shape := shape;
      dim := |shape|;
    }

    /** `(data, shape)` constructor: adopts the caller's array as is. */
    constructor WithData(d: array<real>, shape: seq<int>)
      ensures this.shape == shape && dim == |shape| && data == d
    {
      data := d;
      this.shape := shape;
      dim := |shape|;
    }

    /** The weighted-sum loop shared by `get`, `set` and `inc`. */
    method Cell(index: seq<int>) returns (r: Result<int>)
      ensures r == CellOf(shape, dim, index)
    {
      if |index| != |shape| {
        return Err(IndexArity);
      }
      if dim > |shape| {
        return Err(IndexOutOfBounds);
      }
      var realI := 0;
      for d := 0 to dim
        invariant realI == WeightedSum(shape, index, d)
      {
        realI := realI + index[d] * shape[d];
      }
      return Ok(realI);
    }

    method Get(index: seq<int>) returns (r: Result<real>)
      ensures r == Lookup(shape, dim, data[..], index)
    {
      var o := Cell(index);
      if o.Err? {
        return Err(o.error);
      }
      if !(0 <= o.value < data.Length) {
        return Err(IndexOutOfBounds);
      }
      return Ok(data[o.value]);
    }

    /** `set`: on success exactly the addressed cell changes; on failure nothing does. */
    method Set(value: real, index: seq<int>) returns (s: Status)
      modifies data
      ensures var c := CellOf(shape, dim, index);
        if c.Ok? && 0 <= c.value < data.Length
        then s == Done && data[..] == old(data[..])[c.value := value]
        else s.Failed? && data[..] == old(data[..])
    {
      var o := Cell(index);
      if o.Err? {
        return Failed(o.error);
      }
      if !(0 <= o.value < data.Length) {
        return Failed(IndexOutOfBounds);
      }
      data[o.value] := value;
      return Done;
    }

    /** `inc`: on success the addressed cell grows by `value`; on failure nothing changes. */
    method Inc(value: real, index: seq<int>) returns (s: Status)
      modifies data
      ensures var c := CellOf(shape, dim, index);
        if c.Ok? && 0 <= c.value < data.Length
        then s == Done && data[..] == old(data[..])[c.value := old(data[c.value]) + value]
        else s.Failed? && data[..] == old(data[..])
    {
      var o := Cell(index);
      if o.Err? {
        return Failed(o.error);
      }
      if !(0 <= o.value < data.Length) {
        return Failed(IndexOutOfBounds);
      }
      data[o.value] := data[o.value] + value;
      return Done;
    }

    /** `reshape`: replaces the shape; the recorded rank stays. */
    method Reshape(newShape: seq<int>)
      modifies this`shape
      ensures shape == newShape
    {
      shape := newShape;
    }

    /** `randomise`: every cell becomes an arbitrary draw in [0, 1). */
    method Randomise()
      modifies data
      ensures forall i :: 0 <= i < data.Length ==> 0.0 <= data[i] < 1.0
    {
      for i := 0 to data.Length
        invariant forall j :: 0 <= j < i ==> 0.0 <= data[j] < 1.0
      {
        var u :| 0.0 <= u < 1.0;
        data[i] := u;
      }
    }

    /** `map`: every cell x becomes f(x), in place. */
    method Map(f: real -> real)
      modifies data
      ensures forall i :: 0 <= i < data.Length ==> data[i] == f(old(data[i]))
    {
      for i := 0 to data.Length
        invariant forall j :: 0 <= j < i ==> data[j] == f(old(data[j]))
        invariant forall j :: i <= j < data.Length ==> data[j] == old(data[j])
      {
        data[i] := f(data[i]);
      }
    }

    /** `raw_data`: a copy of the buffer. */
    method RawData() returns (r: seq<real>)
      ensures |r| == data.Length && forall i :: 0 <= i < |r| ==> r[i] == data[i]
    {
      r := data[..];
    }

    /** `size(d)`: the d-th dimension, or an out-of-bounds failure. */
    method Size(d: int) returns (r: Result<int>)
      ensures r.Ok? <==> 0 <= d < |shape|
      ensures r.Ok? ==> r.value == shape[d]
      ensures r.Err? ==> r.error == IndexOutOfBounds
    {
      if 0 <= d < |shape| {
        return Ok(shape[d]);
      }
      return Err(IndexOutOfBounds);
    }
  }

  /** A tensor built from its shape alone has no cells: every access fails. */
  lemma ShapeOnlyHasNoCells(shape: seq<int>, index: seq<int>)
    ensures Lookup(shape, |shape|, [], index).Err?
  {
  }

  /** In a 2×2 tensor the indices (0,1) and (1,0) address the same cell, 2, which
      the row-major layout would give to (1,0) alone. */
  lemma {:induction false} WeightedSumCollides(buf: seq<real>)
    requires |buf| == 4
    ensures CellOf([2, 2], 2, [0, 1]) == CellOf([2, 2], 2, [1, 0]) == Ok(2)
    ensures Lookup([2, 2], 2, buf, [0, 1]) == Lookup([2, 2], 2, buf, [1, 0]) == Ok(buf[2])
    ensures Offset([2, 2], [0, 1]) == 1 && Offset([2, 2], [1, 0]) == 2
  {
    assert WeightedSum([2, 2], [0, 1], 1) == 0;
    assert WeightedSum([2, 2], [1, 0], 1) == 2;
    Offset2(2, 2, 0, 1);
    Offset2(2, 2, 1, 0);
  }

  /** Of two writes through colliding indices only the second survives. */
  method CollidingWrites(t: Tensor) returns (r: Result<real>)
    requires t.shape == [2, 2] && t.dim == 2 && t.data.Length == 4
    modifies t.data
    ensures r == Ok(2.0)
  {
    WeightedSumCollides(t.data[..]);
    var s1 := t.Set(1.0, [0, 1]);
    var s2 := t.Set(2.0, [1, 0]);
    WeightedSumCollides(t.data[..]);
    r := t.Get([0, 1]);
  }
}
