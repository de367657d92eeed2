/** Value semantics of a `data.Tensor`: a shape and a flat row-major buffer of reals,
    with the element access of `get`, `set` and `inc` and its failure modes. */
module Tensors {
  import opened Outcomes
  import opened Shapes

  datatype Tensor = Tensor(shape: seq<int>, data: seq<real>)

  /** The buffer holds exactly product(shape) cells. */
  predicate Wf(t: Tensor)
  {
    |t.data| == Product(t.shape)
  }

  /** A freshly allocated tensor: product(shape) cells, all zero. */
  function Zeros(shape: seq<int>): (t: Tensor)
    requires Product(shape) >= 0
    ensures Wf(t) && t.shape == shape
    ensures forall i :: 0 <= i < |t.data| ==> t.data[i] == 0.0
  {
    Tensor(shape, seq(Product(shape), _ => 0.0))
  }

  /** The flat index `get`/`set`/`inc` compute: the arity check against the current
      shape, then the stride loop over the first `dim` dimensions (`dim` is the rank
      recorded at construction, which `reshape` does not update). */
  function FlatIndex(shape: seq<int>, dim: nat, index: seq<int>): (r: Result<int>)
    ensures r.Err? <==> |index| != |shape| || dim > |shape|
    ensures |index| != |shape| ==> r == Err(IndexArity)
    ensures dim == |shape| == |index| ==> r == Ok(Offset(shape, index))
  {
    if |index| != |shape| then Err(IndexArity)
    else if dim > |shape| then Err(IndexOutOfBounds)
    else
      assert dim == |shape| ==> shape[..dim] == shape && index[..dim] == index;
      Ok(Offset(shape[..dim], index[..dim]))
  }

  /** `get`: the cell at the flat index, or the exception Java raises: an index of
      the wrong length is refused before anything is read, and any other failure is
      a read outside the buffer. */
  function Lookup(shape: seq<int>, dim: nat, buf: seq<real>, index: seq<int>): (r: Result<real>)
    ensures |index| != |shape| ==> r == Err(IndexArity)
    ensures |index| == |shape| && r.Err? ==> r.error == IndexOutOfBounds
    ensures r.Ok? ==> r.value in buf
  {
    match FlatIndex(shape, dim, index)
    case Err(e) => Err(e)
    case Ok(o) => if 0 <= o < |buf| then Ok(buf[o]) else Err(IndexOutOfBounds)
  }

  /** `set`: the buffer with the cell at the flat index replaced. It fails exactly
      where `get` fails, with the same exception; on success the buffer keeps its
      length and `get` at that index returns v. */
  function Store(shape: seq<int>, dim: nat, buf: seq<real>, index: seq<int>, v: real): (r: Result<seq<real>>)
    ensures r.Ok? <==> Lookup(shape, dim, buf, index).Ok?
    ensures r.Err? ==> r.error == Lookup(shape, dim, buf, index).error
    ensures r.Ok? ==> |r.value| == |buf| && Lookup(shape, dim, r.value, index) == Ok(v)
  {
    match FlatIndex(shape, dim, index)
    case Err(e) => Err(e)
    case Ok(o) => if 0 <= o < |buf| then Ok(buf[o := v]) else Err(IndexOutOfBounds)
  }

  /** `inc`: the buffer with `v` added to the cell at the flat index. It fails
      exactly where `get` fails, with the same exception; on success the buffer keeps
      its length and `get` at that index returns the old value plus v. */
  function Increment(shape: seq<int>, dim: nat, buf: seq<real>, index: seq<int>, v: real): (r: Result<seq<real>>)
    ensures r.Ok? <==> Lookup(shape, dim, buf, index).Ok?
    ensures r.Err? ==> r.error == Lookup(shape, dim, buf, index).error
    ensures r.Ok? ==> |r.value| == |buf|
    ensures r.Ok? ==> Lookup(shape, dim, r.value, index) == Ok(Lookup(shape, dim, buf, index).value + v)
  {
    match FlatIndex(shape, dim, index)
    case Err(e) => Err(e)
    case Ok(o) => if 0 <= o < |buf| then Ok(buf[o := buf[o] + v]) else Err(IndexOutOfBounds)
  }

  /** An in-range index of a well-formed tensor is read without failure, at its
      row-major offset. */
  lemma {:induction false} LookupInRange(shape: seq<int>, buf: seq<real>, index: seq<int>)
    requires InRange(shape, index) && |buf| == Product(shape)
    ensures Lookup(shape, |shape|, buf, index).Ok?
    ensures Lookup(shape, |shape|, buf, index).value == buf[Offset(shape, index)]
  {
    OffsetBounds(shape, index);
  }

  /** `set` followed by `get` at the same index returns the stored value. */
  lemma StoreThenLookup(shape: seq<int>, dim: nat, buf: seq<real>, index: seq<int>, v: real)
    requires Store(shape, dim, buf, index, v).Ok?
    ensures |Store(shape, dim, buf, index, v).value| == |buf|
    ensures Lookup(shape, dim, Store(shape, dim, buf, index, v).value, index) == Ok(v)
  {
  }

  /** `set` touches exactly one cell: every other in-range index reads as before. */
  lemma {:induction false} StoreFrame(shape: seq<int>, buf: seq<real>, index: seq<int>, other: seq<int>, v: real)
    requires |buf| == Product(shape) && InRange(shape, index) && InRange(shape, other)
    requires other != index
    ensures Store(shape, |shape|, buf, index, v).Ok?
    ensures Lookup(shape, |shape|, Store(shape, |shape|, buf, index, v).value, other)
         == Lookup(shape, |shape|, buf, other)
  {
    OffsetBounds(shape, index);
    OffsetBounds(shape, other);
    if Offset(shape, index) == Offset(shape, other) {
      OffsetInjective(shape, index, other);
    }
  }

  /** `inc` adds `v` to the addressed cell and leaves every other in-range index as it was. */
  lemma {:induction false} IncrementOne(shape: seq<int>, buf: seq<real>, index: seq<int>, other: seq<int>, v: real)
    requires |buf| == Product(shape) && InRange(shape, index) && InRange(shape, other)
    ensures Increment(shape, |shape|, buf, index, v).Ok?
    ensures Lookup(shape, |shape|, Increment(shape, |shape|, buf, index, v).value, other).Ok?
    ensures Lookup(shape, |shape|, Increment(shape, |shape|, buf, index, v).value, other).value
         == Lookup(shape, |shape|, buf, other).value + (if other == index then v else 0.0)
  {
    OffsetBounds(shape, index);
    OffsetBounds(shape, other);
    if other != index && Offset(shape, index) == Offset(shape, other) {
      OffsetInjective(shape, index, other);
    }
  }

  /** After a `reshape` to another rank the stale rank still drives the stride loop:
      with rank 2 recorded, a shape of [2,2,2] reads cell a*2+b for index (a,b,c),
      so (1,1,0) and (1,1,1) read the same cell. */
  lemma StaleRankAliases(buf: seq<real>)
    requires |buf| == 8
    ensures Lookup([2, 2, 2], 2, buf, [1, 1, 0]) == Lookup([2, 2, 2], 2, buf, [1, 1, 1]) == Ok(buf[3])
  {
    assert [2, 2, 2][..2] == [2, 2];
    assert [1, 1, 0][..2] == [1, 1] && [1, 1, 1][..2] == [1, 1];
    Offset2(2, 2, 1, 1);
  }

  /** The buffer 1..12 read as [3,2,2]: index (1,0,1) is 6; after reshaping to
      [2,3,2] (same rank) the same index is 8. */
  lemma ShapesAndAccess()
    ensures var buf := [1.0, 2.0, 3.0, 4.0, 5.0, 6.0, 7.0, 8.0, 9.0, 10.0, 11.0, 12.0];
      Lookup([3, 2, 2], 3, buf, [1, 0, 1]) == Ok(6.0) &&
      Lookup([2, 3, 2], 3, buf, [1, 0, 1]) == Ok(8.0)
  {
    Offset3(3, 2, 2, 1, 0, 1);
    Offset3(2, 3, 2, 1, 0, 1);
    assert [3, 2, 2][..3] == [3, 2, 2] && [2, 3, 2][..3] == [2, 3, 2] && [1, 0, 1][..3] == [1, 0, 1];
  }

  // In-range access for well-formed tensors, used by the layers.

  /** The element at an in-range index. */
  function At(t: Tensor, index: seq<int>): real
    requires Wf(t) && InRange(t.shape, index)
  {
    OffsetBounds(t.shape, index);
    t.data[Offset(t.shape, index)]
  }

  /** `set` at an in-range index: that element becomes v, every other stays. */
  function Put(t: Tensor, index: seq<int>, v: real): (r: Tensor)
    requires Wf(t) && InRange(t.shape, index)
    ensures Wf(r) && r.shape == t.shape
    ensures forall j {:trigger At(r, j)} :: InRange(t.shape, j) ==>
              At(r, j) == if j == index then v else At(t, j)
  {
    OffsetBounds(t.shape, index);
    var r := Tensor(t.shape, t.data[Offset(t.shape, index) := v]);
    assert forall j :: InRange(t.shape, j) && j != index ==> At(r, j) == At(t, j) by {
      forall j | InRange(t.shape, j) && j != index ensures At(r, j) == At(t, j) {
        OffsetBounds(t.shape, j);
        if Offset(t.shape, j) == Offset(t.shape, index) { OffsetInjective(t.shape, j, index); }
      }
    }
    r
  }

  /** `inc` at an in-range index: v is added to that element, every other stays. */
  function AddAt(t: Tensor, index: seq<int>, v: real): (r: Tensor)
    requires Wf(t) && InRange(t.shape, index)
    ensures Wf(r) && r.shape == t.shape
    ensures forall j {:trigger At(r, j)} :: InRange(t.shape, j) ==>
              At(r, j) == if j == index then At(t, j) + v else At(t, j)
  {
    Put(t, index, At(t, index) + v)
  }

  /** The value-level access agrees with `get` on a tensor whose rank is current. */
  lemma AtIsLookup(t: Tensor, index: seq<int>)
    requires Wf(t) && InRange(t.shape, index)
    ensures Lookup(t.shape, |t.shape|, t.data, index) == Ok(At(t, index))
  {
    LookupInRange(t.shape, t.data, index);
  }
}
