/** Java `double[][]` and `double[][][]` values as nested sequences. Java arrays of
    arrays may be ragged, so the shape predicates below are explicit. */
module Arrays {

  type Matrix = seq<seq<real>>
  type Volume = seq<Matrix>

  /** Exactly `rows` rows of exactly `cols` cells. */
  predicate IsMatrix(m: Matrix, rows: int, cols: int)
  {
    |m| == rows && forall i :: 0 <= i < |m| ==> |m[i]| == cols
  }

  /** Exactly c × h × w cells. */
  predicate IsVolume(v: Volume, c: int, h: int, w: int)
  {
    |v| == c && forall i :: 0 <= i < |v| ==> IsMatrix(v[i], h, w)
  }

  /** Every [i][j] with 0 <= i < rows and 0 <= j < cols can be read (vacuous when
      either bound is not positive, since a loop nest over them reads nothing). */
  predicate CoversMatrix(m: Matrix, rows: int, cols: int)
  {
    cols <= 0 || (rows <= |m| && forall i :: 0 <= i < rows ==> cols <= |m[i]|)
  }

  /** Every [z][y][x] with z < c, y < h and x < w can be read. */
  predicate CoversVolume(v: Volume, c: int, h: int, w: int)
  {
    h <= 0 || w <= 0 || (c <= |v| && forall z :: 0 <= z < c ==> CoversMatrix(v[z], h, w))
  }

  /** `v[c][y][x]` where that cell exists; 0 elsewhere (never read there). */
  function Read3(v: Volume, c: int, y: int, x: int): real
  {
    if 0 <= c < |v| && 0 <= y < |v[c]| && 0 <= x < |v[c][y]| then v[c][y][x] else 0.0
  }

  /** `b[k][c][y][x]` of a Java `double[][][][]` where that cell exists; 0 elsewhere. */
  function Read4(b: seq<Volume>, k: int, c: int, y: int, x: int): real
  {
    if 0 <= k < |b| && 0 <= c < |b[k]| && 0 <= y < |b[k][c]| && 0 <= x < |b[k][c][y]|
    then b[k][c][y][x] else 0.0
  }

  /** [c][y][x] is a cell of v. */
  predicate InVolume(v: Volume, c: int, y: int, x: int)
  {
    0 <= c < |v| && 0 <= y < |v[c]| && 0 <= x < |v[c][y]|
  }

  /** u has the (possibly ragged) dimensions of v. */
  predicate SameShape(u: Volume, v: Volume)
  {
    |u| == |v| &&
    (forall c :: 0 <= c < |v| ==> |u[c]| == |v[c]|) &&
    (forall c, y :: 0 <= c < |v| && 0 <= y < |v[c]| ==> |u[c][y]| == |v[c][y]|)
  }

  /** `v[c][y][x] = value`, seen through Read3: that cell becomes value, the shape and
      every other cell stay. */
  function Write3(v: Volume, c: int, y: int, x: int, value: real): (r: Volume)
    requires InVolume(v, c, y, x)
    ensures SameShape(r, v)
    ensures forall n, h, w :: IsVolume(v, n, h, w) ==> IsVolume(r, n, h, w)
    ensures forall a, i, j :: Read3(r, a, i, j) == if a == c && i == y && j == x then value else Read3(v, a, i, j)
  {
    Put3(v, c, y, x, value)
  }

  /** `new double[rows][cols]`: a zero matrix. */
  function Zeros2(rows: nat, cols: nat): (m: Matrix)
    ensures IsMatrix(m, rows, cols)
    ensures forall i, j :: 0 <= i < rows && 0 <= j < cols ==> m[i][j] == 0.0
  {
    seq(rows, _ => seq(cols, _ => 0.0))
  }

  /** `new double[c][h][w]`: a zero volume. */
  function Zeros3(c: nat, h: nat, w: nat): (v: Volume)
    ensures IsVolume(v, c, h, w)
    ensures forall z, y, x :: 0 <= z < c && 0 <= y < h && 0 <= x < w ==> v[z][y][x] == 0.0
  {
    seq(c, _ => Zeros2(h, w))
  }

  /** `m[i][j] = value`. */
  function Put2(m: Matrix, i: int, j: int, value: real): (r: Matrix)
    requires 0 <= i < |m| && 0 <= j < |m[i]|
    ensures |r| == |m| && forall a :: 0 <= a < |m| ==> |r[a]| == |m[a]|
    ensures forall a, b :: 0 <= a < |m| && 0 <= b < |m[a]| ==>
      r[a][b] == if a == i && b == j then value else m[a][b]
  {
    m[i := m[i][j := value]]
  }

  /** `v[z][y][x] = value`. */
  function Put3(v: Volume, z: int, y: int, x: int, value: real): (r: Volume)
    requires 0 <= z < |v| && 0 <= y < |v[z]| && 0 <= x < |v[z][y]|
    ensures |r| == |v|
    ensures forall a :: 0 <= a < |v| ==> |r[a]| == |v[a]|
    ensures forall a, b :: 0 <= a < |v| && 0 <= b < |v[a]| ==> |r[a][b]| == |v[a][b]|
    ensures forall a, b, c :: 0 <= a < |v| && 0 <= b < |v[a]| && 0 <= c < |v[a][b]| ==>
      r[a][b][c] == if a == z && b == y && c == x then value else v[a][b][c]
  {
    v[z := Put2(v[z], y, x, value)]
  }

  /** Writing a cell keeps a volume's dimensions. */
  lemma Put3Shape(v: Volume, c: int, h: int, w: int, z: int, y: int, x: int, value: real)
    requires IsVolume(v, c, h, w) && 0 <= z < c && 0 <= y < h && 0 <= x < w
    ensures IsVolume(Put3(v, z, y, x, value), c, h, w)
  {
  }

  /** Two volumes of the same dimensions with the same cells are equal. */
  lemma VolumeExt(u: Volume, v: Volume, c: int, h: int, w: int)
    requires IsVolume(u, c, h, w) && IsVolume(v, c, h, w)
    requires forall z, y, x :: 0 <= z < c && 0 <= y < h && 0 <= x < w ==> u[z][y][x] == v[z][y][x]
    ensures u == v
  {
    forall z | 0 <= z < c
      ensures u[z] == v[z]
    {
      MatrixExt(u[z], v[z], h, w);
    }
  }

  /** Two matrices of the same dimensions with the same cells are equal. */
  lemma MatrixExt(u: Matrix, v: Matrix, rows: int, cols: int)
    requires IsMatrix(u, rows, cols) && IsMatrix(v, rows, cols)
    requires forall i, j :: 0 <= i < rows && 0 <= j < cols ==> u[i][j] == v[i][j]
    ensures u == v
  {
    forall i | 0 <= i < rows
      ensures u[i] == v[i]
    {
      assert forall j :: 0 <= j < cols ==> u[i][j] == v[i][j];
    }
  }
}
