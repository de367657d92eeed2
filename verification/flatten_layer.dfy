/** `cnn.FlattenLayer`: [C][H][W] volumes to [1][1][C·H·W] and back, through the
    row-major index z·H·W + y·W + x. */
module Flatten {
  import opened Outcomes
  import opened Arrays
  import Shapes

  /** Position of cell (z, y, x) of a c × h × w volume in the flat vector. */
  function Index(c: int, h: int, w: int, z: int, y: int, x: int): (r: int)
    requires 0 <= z < c && 0 <= y < h && 0 <= x < w
    ensures 0 <= r < c * (h * w)
  {
    Shapes.MulMonotone(y + 1, h, w);
    Shapes.MulMonotone(z + 1, c, h * w);
    z * (h * w) + y * w + x
  }

  /** An in-range cell lands inside the vector, and its coordinates can be read
      back by division: the index map is one-to-one. */
  lemma {:induction false} IndexDecomposes(c: int, h: int, w: int, z: int, y: int, x: int)
    requires 0 <= z < c && 0 <= y < h && 0 <= x < w
    ensures Index(c, h, w, z, y, x) / (h * w) == z
    ensures Index(c, h, w, z, y, x) % (h * w) / w == y
    ensures Index(c, h, w, z, y, x) % w == x
  {
    RowOffsetBelow(h, w, y, x);
    Shapes.DivModOf(z, y * w + x, h * w);
    Shapes.DivModOf(y, x, w);
    RemainderOfIndex(h, w, z, y, x);
  }

  /** The offset of cell (y, x) inside its plane is below H·W. */
  lemma RowOffsetBelow(h: int, w: int, y: int, x: int)
    requires 0 <= y < h && 0 <= x < w
    ensures 0 <= y * w + x < h * w
  {
    Shapes.MulMonotone(y + 1, h, w);
  }

  /** Every position of the vector is the index of exactly the cell its quotients
      name: the index map is onto [0, C·H·W). */
  lemma {:induction false} IndexOnto(c: int, h: int, w: int, j: int)
    requires 0 < h && 0 < w && 0 <= j < c * (h * w)
    ensures 0 <= j / (h * w) < c && 0 <= j % (h * w) / w < h && 0 <= j % w < w
    ensures Index(c, h, w, j / (h * w), j % (h * w) / w, j % w) == j
  {
    var p := h * w;
    var z, rest := j / p, j % p;
    QuotientBelow(j, c, p);
    QuotientBelow(rest, h, w);
    var y, x := rest / w, rest % w;
    assert j == z * p + y * w + x;
    RemainderOfIndex(h, w, z, y, x);
  }

  /** A quotient by p of a number below c·p is below c. */
  lemma QuotientBelow(j: int, c: int, p: int)
    requires p > 0 && 0 <= j < c * p
    ensures 0 <= j / p < c && 0 <= j % p < p && j == j / p * p + j % p
  {
    var q := j / p;
    if q >= c {
      Shapes.MulMonotone(c, q, p);
    }
  }

  /** The index taken modulo W is the column. */
  lemma RemainderOfIndex(h: int, w: int, z: int, y: int, x: int)
    requires 0 <= x < w
    ensures (z * (h * w) + y * w + x) % w == x
  {
    assert z * (h * w) + y * w + x == (z * h + y) * w + x;
    Shapes.DivModOf(z * h + y, x, w);
  }

  /** The vector `forward` builds: cell (z, y, x) of the input at Index(z, y, x). */
  function Flattened(v: Volume, c: nat, h: nat, w: nat): (r: seq<real>)
    requires CoversVolume(v, c, h, w)
    ensures |r| == c * (h * w)
    ensures forall z, y, x :: 0 <= z < c && 0 <= y < h && 0 <= x < w ==>
      r[Index(c, h, w, z, y, x)] == v[z][y][x]
  {
    DecomposesEverywhere(c, h, w);
    seq(c * (h * w), j requires 0 <= j < c * (h * w) => FlatCell(v, c, h, w, j))
  }

  lemma DecomposesEverywhere(c: int, h: int, w: int)
    ensures forall z, y, x :: 0 <= z < c && 0 <= y < h && 0 <= x < w ==>
      var j := Index(c, h, w, z, y, x);
      j / (h * w) == z && j % (h * w) / w == y && j % w == x
  {
    forall z, y, x | 0 <= z < c && 0 <= y < h && 0 <= x < w
      ensures var j := Index(c, h, w, z, y, x);
        j / (h * w) == z && j % (h * w) / w == y && j % w == x
    {
      IndexDecomposes(c, h, w, z, y, x);
    }
  }

  function FlatCell(v: Volume, c: nat, h: nat, w: nat, j: int): real
    requires CoversVolume(v, c, h, w) && 0 <= j < c * (h * w)
  {
    IndexOnto(c, h, w, j);
    v[j / (h * w)][j % (h * w) / w][j % w]
  }

  /** The volume `backward` builds: cell (z, y, x) read from Index(z, y, x). */
  function Unflattened(g: seq<real>, c: nat, h: nat, w: nat): (r: Volume)
    requires c * (h * w) <= |g|
    ensures IsVolume(r, c, h, w)
    ensures forall z, y, x :: 0 <= z < c && 0 <= y < h && 0 <= x < w ==>
      r[z][y][x] == g[Index(c, h, w, z, y, x)]
  {
    seq(c, z requires 0 <= z < c =>
      seq(h, y requires 0 <= y < h =>
        seq(w, x requires 0 <= x < w => UnflatCell(g, c, h, w, z, y, x))))
  }

  function UnflatCell(g: seq<real>, c: nat, h: nat, w: nat, z: int, y: int, x: int): real
    requires c * (h * w) <= |g| && 0 <= z < c && 0 <= y < h && 0 <= x < w
  {
    g[Index(c, h, w, z, y, x)]
  }

  /** Flattening then unflattening gives the volume back. */
  lemma RoundTrip(v: Volume, c: nat, h: nat, w: nat)
    requires IsVolume(v, c, h, w)
    ensures Unflattened(Flattened(v, c, h, w), c, h, w) == v
  {
    var r := Unflattened(Flattened(v, c, h, w), c, h, w);
    forall z | 0 <= z < c
      ensures r[z] == v[z]
    {
      forall y | 0 <= y < h
        ensures r[z][y] == v[z][y]
      {
        forall x | 0 <= x < w
          ensures r[z][y][x] == v[z][y][x]
        {
          IndexDecomposes(c, h, w, z, y, x);
        }
      }
    }
  }

  /** Unflattening then flattening gives back the first C·H·W cells. */
  lemma RoundTripFlat(g: seq<real>, c: nat, h: nat, w: nat)
    requires c * (h * w) <= |g|
    ensures Flattened(Unflattened(g, c, h, w), c, h, w) == g[..c * (h * w)]
  {
    var v := Unflattened(g, c, h, w);
    var r := Flattened(v, c, h, w);
    forall j | 0 <= j < c * (h * w)
      ensures r[j] == g[j]
    {
      IndexOnto(c, h, w, j);
      IndexDecomposes(c, h, w, j / (h * w), j % (h * w) / w, j % w);
    }
  }

  /** `flatten_3d`: its `shape` is a zero-filled array of length C·H·W, so reading
      shape[0..2] throws when that length is below 3, and otherwise the result has
      0·0·0 cells. Reading data[0] or data[0][0] of an empty array throws too. */
  function Flatten3d(data: Volume): (r: Result<seq<real>>)
    ensures r.Ok? <==> |data| > 0 && |data[0]| > 0 && |data| * |data[0]| * |data[0][0]| >= 3
    ensures r.Ok? ==> r.value == []
    ensures r.Err? ==> r.error == IndexOutOfBounds
  {
    if |data| == 0 || |data[0]| == 0 then Err(IndexOutOfBounds)
    else
      var shape := seq(|data| * |data[0]| * |data[0][0]|, _ => 0);
      if |shape| < 3 then Err(IndexOutOfBounds)
      else Ok(seq(shape[0] * shape[1] * shape[2], _ => 0.0))
  }

  /** Cell (z, y, x) when the Java arrays have it, 0 otherwise. */
  function ReadCell(v: Volume, z: int, y: int, x: int): real
  {
    if 0 <= z < |v| && 0 <= y < |v[z]| && 0 <= x < |v[z][y]| then v[z][y][x] else 0.0
  }

  /** The row `forward` has built once its loops have visited k cells. */
  function FlatPrefix(v: Volume, c: nat, h: nat, w: nat, k: int): (r: seq<real>)
    ensures |r| == c * (h * w)
  {
    if h * w == 0 then []
    else seq(c * (h * w), j => if j < k then ReadCell(v, j / (h * w), j % (h * w) / w, j % w) else 0.0)
  }

  /** One more visited cell: the write of cell (z, y, x) at its index. */
  lemma FlatPrefixStep(v: Volume, c: nat, h: nat, w: nat, z: int, y: int, x: int)
    requires 0 <= z < c && 0 <= y < h && 0 <= x < w
    requires z < |v| && y < |v[z]| && x < |v[z][y]|
    ensures FlatPrefix(v, c, h, w, Index(c, h, w, z, y, x))[Index(c, h, w, z, y, x) := v[z][y][x]]
         == FlatPrefix(v, c, h, w, Index(c, h, w, z, y, x) + 1)
  {
    IndexDecomposes(c, h, w, z, y, x);
  }

  /** After all C·H·W cells of a readable volume the row is `Flattened`. */
  lemma FlatPrefixFull(v: Volume, c: nat, h: nat, w: nat)
    requires CoversVolume(v, c, h, w)
    ensures FlatPrefix(v, c, h, w, c * (h * w)) == Flattened(v, c, h, w)
  {
    var r := FlatPrefix(v, c, h, w, c * (h * w));
    forall j | 0 <= j < c * (h * w)
      ensures r[j] == Flattened(v, c, h, w)[j]
    {
      IndexOnto(c, h, w, j);
    }
  }

  /** The volume `backward` has built once its loops have visited k cells. */
  function VolumePrefix(row: seq<real>, c: nat, h: nat, w: nat, k: int): (r: Volume)
    ensures IsVolume(r, c, h, w)
  {
    seq(c, z requires 0 <= z < c =>
      seq(h, y requires 0 <= y < h =>
        seq(w, x requires 0 <= x < w =>
          var j := Index(c, h, w, z, y, x);
          if j < k && j < |row| then row[j] else 0.0)))
  }

  /** One more visited cell: the write of row[k] at the cell whose index is k. */
  lemma VolumePrefixStep(row: seq<real>, c: nat, h: nat, w: nat, z: int, y: int, x: int)
    requires 0 <= z < c && 0 <= y < h && 0 <= x < w && Index(c, h, w, z, y, x) < |row|
    ensures Put3(VolumePrefix(row, c, h, w, Index(c, h, w, z, y, x)), z, y, x, row[Index(c, h, w, z, y, x)])
         == VolumePrefix(row, c, h, w, Index(c, h, w, z, y, x) + 1)
  {
    var k := Index(c, h, w, z, y, x);
    var u := VolumePrefix(row, c, h, w, k);
    Put3Shape(u, c, h, w, z, y, x, row[k]);
    DecomposesEverywhere(c, h, w);
    VolumeExt(Put3(u, z, y, x, row[k]), VolumePrefix(row, c, h, w, k + 1), c, h, w);
  }

  /** Before any cell the volume is zero; after all of them it is `Unflattened`. */
  lemma VolumePrefixEnds(row: seq<real>, c: nat, h: nat, w: nat)
    ensures VolumePrefix(row, c, h, w, 0) == Zeros3(c, h, w)
    ensures c * (h * w) <= |row| ==> VolumePrefix(row, c, h, w, c * (h * w)) == Unflattened(row, c, h, w)
  {
    VolumeExt(VolumePrefix(row, c, h, w, 0), Zeros3(c, h, w), c, h, w);
    if c * (h * w) <= |row| {
      VolumeExt(VolumePrefix(row, c, h, w, c * (h * w)), Unflattened(row, c, h, w), c, h, w);
    }
  }

  /** Plane z of the volume can be read wherever the loops look. */
  predicate PlaneReadable(v: Volume, z: int, h: int, w: int)
  {
    h <= 0 || w <= 0 || (0 <= z < |v| && CoversMatrix(v[z], h, w))
  }

  /** The three loops of `forward`: copy every cell of a c × h × w volume to its
      index, throwing at the first plane the Java arrays lack cells of. */
  method CopyCells(input: Volume, c: nat, h: nat, w: nat) returns (r: Result<seq<real>>)
    ensures r == if CoversVolume(input, c, h, w) then Ok(Flattened(input, c, h, w))
                 else Err(IndexOutOfBounds)
  {
    var flat := seq(c * (h * w), _ => 0.0);
    assert flat == FlatPrefix(input, c, h, w, 0);
    ghost var k := 0;
    for z := 0 to c
      invariant k == z * (h * w) && flat == FlatPrefix(input, c, h, w, k)
      invariant forall a :: 0 <= a < z ==> PlaneReadable(input, a, h, w)
    {
      var plane := CopyPlane(input, c, h, w, z, flat, k);
      if plane.Err? {
        assert !CoversVolume(input, c, h, w) by {
          if h > 0 && w > 0 && c <= |input| {
            assert !CoversMatrix(input[z], h, w);
          }
        }
        return Err(IndexOutOfBounds);
      }
      flat := plane.value;
      k := k + h * w;
    }
    assert CoversVolume(input, c, h, w) by {
      if h > 0 && w > 0 && c > 0 {
        assert PlaneReadable(input, c - 1, h, w);
        forall a | 0 <= a < c
          ensures CoversMatrix(input[a], h, w)
        {
          assert PlaneReadable(input, a, h, w);
        }
      }
    }
    FlatPrefixFull(input, c, h, w);
    return Ok(flat);
  }

  /** The first y rows of plane m have at least w cells each. */
  predicate RowsReadable(m: Matrix, y: int, w: int)
    requires y <= |m|
  {
    forall b :: 0 <= b < y ==> w <= |m[b]|
  }

  /** The two inner loops of `forward`, for plane z (whose first index is k). */
  method CopyPlane(input: Volume, c: nat, h: nat, w: nat, z: int, flat: seq<real>, ghost k: int)
    returns (r: Result<seq<real>>)
    requires 0 <= z < c && k == z * (h * w) && flat == FlatPrefix(input, c, h, w, k)
    ensures r.Ok? <==> PlaneReadable(input, z, h, w)
    ensures r.Ok? ==> r.value == FlatPrefix(input, c, h, w, k + h * w)
    ensures r.Err? ==> r.error == IndexOutOfBounds
  {
    if h > 0 && w > 0 && (z >= |input| || |input[z]| < h) {
      return Err(IndexOutOfBounds);
    }
    var cells := flat;
    ghost var j := k;
    for y := 0 to h
      invariant j == k + y * w && cells == FlatPrefix(input, c, h, w, j)
      invariant h > 0 && w > 0 ==> z < |input| && h <= |input[z]| && RowsReadable(input[z], y, w)
    {
      if w > 0 && |input[z][y]| < w {
        assert !CoversMatrix(input[z], h, w);
        return Err(IndexOutOfBounds);
      }
      cells := CopyRow(input, c, h, w, z, y, cells, j);
      j := j + w;
    }
    assert PlaneReadable(input, z, h, w) by {
      if h > 0 && w > 0 {
        assert RowsReadable(input[z], h, w);
      }
    }
    return Ok(cells);
  }

  /** The innermost loop of `forward`, for row y of plane z (whose first index is k). */
  method CopyRow(input: Volume, c: nat, h: nat, w: nat, z: int, y: int, flat: seq<real>, ghost k: int)
    returns (r: seq<real>)
    requires 0 <= z < c && 0 <= y < h && k == z * (h * w) + y * w
    requires w > 0 ==> z < |input| && y < |input[z]| && w <= |input[z][y]|
    requires flat == FlatPrefix(input, c, h, w, k)
    ensures r == FlatPrefix(input, c, h, w, k + w)
  {
    r := flat;
    for x := 0 to w
      invariant r == FlatPrefix(input, c, h, w, k + x)
    {
      FlatPrefixStep(input, c, h, w, z, y, x);
      r := r[Index(c, h, w, z, y, x) := input[z][y][x]];
    }
  }

  /** The innermost loop of `backward`, for row y of plane z whose first index is
      k: the next w entries of the gradient row go to their cells, throwing at the
      first entry the row lacks. */
  method FillRow(row: seq<real>, c: nat, h: nat, w: nat, z: nat, y: nat, k: int, vol: Volume)
    returns (r: Result<Volume>)
    requires z < c && y < h && k == z * (h * w) + y * w && k <= |row|
    requires vol == VolumePrefix(row, c, h, w, k)
    ensures r == if k + w <= |row| then Ok(VolumePrefix(row, c, h, w, k + w)) else Err(IndexOutOfBounds)
  {
    var v := vol;
    var deltaIdx := k;
    for x := 0 to w
      invariant deltaIdx == k + x <= |row| && v == VolumePrefix(row, c, h, w, deltaIdx)
    {
      assert deltaIdx == Index(c, h, w, z, y, x);
      if deltaIdx >= |row| {
        return Err(IndexOutOfBounds);
      }
      VolumePrefixStep(row, c, h, w, z, y, x);
      v := Put3(v, z, y, x, row[deltaIdx]);
      deltaIdx := deltaIdx + 1;
    }
    return Ok(v);
  }

  /** The two inner loops of `backward`, for plane z whose first index is k. */
  method FillPlane(row: seq<real>, c: nat, h: nat, w: nat, z: nat, k: int, vol: Volume)
    returns (r: Result<Volume>)
    requires z < c && k == z * (h * w) && k <= |row|
    requires vol == VolumePrefix(row, c, h, w, k)
    ensures r == if k + h * w <= |row| then Ok(VolumePrefix(row, c, h, w, k + h * w)) else Err(IndexOutOfBounds)
  {
    var v := vol;
    var j := k;
    for y := 0 to h
      invariant j == k + y * w && j <= |row| && v == VolumePrefix(row, c, h, w, j)
    {
      var next := FillRow(row, c, h, w, z, y, j, v);
      if next.Err? {
        NextBlockWithin(y, h, w);
        return Err(IndexOutOfBounds);
      }
      v := next.value;
      j := j + w;
    }
    return Ok(v);
  }

  /** Block y + 1 of n blocks of size p ends within them all. */
  lemma NextBlockWithin(y: int, n: int, p: int)
    requires 0 <= y < n && p >= 0
    ensures y * p + p <= n * p
  {
    Shapes.MulMonotone(y + 1, n, p);
  }

  /** What `forward` returns for an input, and the dimensions it records where h0
      and w0 were recorded before: C, H and W are each stored before the read that
      may throw, so a failing call can leave them mixed. */
  predicate Emitted(input: Volume, h0: nat, w0: nat, c: nat, h: nat, w: nat, r: Result<Volume>)
  {
    c == |input| &&
    (|input| == 0 ==> r == Err(IndexOutOfBounds) && h == h0 && w == w0) &&
    (|input| > 0 && |input[0]| == 0 ==> r == Err(IndexOutOfBounds) && h == 0 && w == w0) &&
    (|input| > 0 && |input[0]| > 0 ==>
      h == |input[0]| && w == |input[0][0]| &&
      r == if CoversVolume(input, c, h, w) then Ok([[Flattened(input, c, h, w)]]) else Err(IndexOutOfBounds))
  }

  /** What `backward` returns for a gradient and the recorded dimensions C, H, W: an
      empty volume needs no read; otherwise the first C·H·W entries of the gradient's
      single row, read in order. */
  function Restored(gradient: Volume, c: nat, h: nat, w: nat): (r: Result<Volume>)
    ensures r.Ok? ==> IsVolume(r.value, c, h, w)
    ensures r.Ok? && c * (h * w) > 0 ==>
      |gradient| > 0 && |gradient[0]| > 0 && c * (h * w) <= |gradient[0][0]| &&
      forall z, y, x :: 0 <= z < c && 0 <= y < h && 0 <= x < w ==>
        r.value[z][y][x] == gradient[0][0][Index(c, h, w, z, y, x)]
    ensures r.Err? ==> r.error == IndexOutOfBounds && c * (h * w) > 0
  {
    var n := c * (h * w);
    if n == 0 then Ok(Zeros3(c, h, w))
    else if |gradient| > 0 && |gradient[0]| > 0 && n <= |gradient[0][0]| then Ok(Unflattened(gradient[0][0], c, h, w))
    else Err(IndexOutOfBounds)
  }

  /** `backward` undoes `forward` on a box-shaped volume: the row `forward` returns,
      handed back with the dimensions it recorded, restores the input. */
  lemma BackwardUndoesForward(input: Volume, h0: nat, w0: nat, c: nat, h: nat, w: nat, r: Result<Volume>)
    requires Emitted(input, h0, w0, c, h, w, r) && r.Ok?
    requires |input| > 0 && IsVolume(input, |input|, |input[0]|, |input[0][0]|)
    ensures Restored(r.value, c, h, w) == Ok(input)
  {
    assert c == |input| && h == |input[0]| && w == |input[0][0]|;
    assert r.value == [[Flattened(input, c, h, w)]];
    if w == 0 {
      var zeros := Zeros3(c, h, w);
      forall z | 0 <= z < c
        ensures input[z] == zeros[z]
      {
        forall y | 0 <= y < h
          ensures input[z][y] == zeros[z][y]
        {
          assert |input[z][y]| == 0 == |zeros[z][y]|;
        }
      }
      assert input == zeros;
    } else {
      Shapes.MulMonotone(1, h, w);
      Shapes.MulMonotone(1, c, h * w);
      RoundTrip(input, c, h, w);
    }
  }


  class FlattenLayer {
    var cIn: nat
    var hIn: nat
    var wIn: nat

    constructor ()
      ensures cIn == 0 && hIn == 0 && wIn == 0
    {
      cIn, hIn, wIn := 0, 0, 0;
    }

    /** `forward`: records C, H and W (each before the read that may throw), then
        copies cell (z, y, x) to position z·H·W + y·W + x of the single row. */
    method Forward(input: Volume) returns (r: Result<Volume>)
      modifies this
      ensures Emitted(input, old(hIn), old(wIn), cIn, hIn, wIn, r)
    {
      cIn := |input|;
      if |input| == 0 {
        return Err(IndexOutOfBounds);
      }
      hIn := |input[0]|;
      if |input[0]| == 0 {
        return Err(IndexOutOfBounds);
      }
      wIn := |input[0][0]|;
      var flat := CopyCells(input, cIn, hIn, wIn);
      if flat.Err? {
        return Err(flat.error);
      }
      return Ok([[flat.value]]);
    }

    /** `backward`: rebuilds a C × H × W volume from the cached dimensions, reading
        the gradient's single row sequentially; the learning rate is unused. Only a
        read past that row (or of a missing row) can throw. */
    method Backward(gradient: Volume, learningRate: real) returns (r: Result<Volume>)
      ensures r == Restored(gradient, cIn, hIn, wIn)
    {
      var c, h, w := cIn, hIn, wIn;
      var row := if |gradient| > 0 && |gradient[0]| > 0 then gradient[0][0] else [];
      var newDelta := Zeros3(c, h, w);
      VolumePrefixEnds(row, c, h, w);
      var k := 0;
      for z := 0 to c
        invariant k == z * (h * w) <= |row| && newDelta == VolumePrefix(row, c, h, w, k)
      {
        var plane := FillPlane(row, c, h, w, z, k, newDelta);
        if plane.Err? {
          NextBlockWithin(z, c, h * w);
          return Err(IndexOutOfBounds);
        }
        newDelta := plane.value;
        k := k + h * w;
      }
      return Ok(newDelta);
    }
  }
}
