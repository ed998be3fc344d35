/** Tetrahedra in space, their signed volume, the integrands defined on
    them and the entry point of a 3D integration scheme. */
module Domain3D {
  import opened Wrappers
  import opened Matrices
  import opened Common

  /** A tetrahedron: its four vertices are the columns of a 3x4 matrix (any
      matrix is accepted by the array constructor). */
  datatype Simplex3D = Simplex3D(points: Matrix)

  /** A function of the barycentric coordinates (xi1, xi2, xi3, xi4) on a tetrahedron. */
  type Integrand3D = (real, real, real, real, Simplex3D) -> real

  /** A scheme integrating over the sub-cell that a transformation cuts out
      of the barycentric reference tetrahedron, threading its own cache. */
  type Rule3D<!D> = (Matrix, Integrand3D, Simplex3D, D) -> (real, D)

  /** `new_from_points`: coordinate c of point k is entry (c, k - 1);
      indexing a point with fewer than three coordinates panics. */
  function NewFromPoints(p1: seq<real>, p2: seq<real>, p3: seq<real>, p4: seq<real>): (r: Result<Simplex3D>)
    ensures r.Ok? <==> |p1| >= 3 && |p2| >= 3 && |p3| >= 3 && |p4| >= 3
    ensures r.Ok? ==> r.value.points.rows == 3 && r.value.points.cols == 4
  {
    if |p1| >= 3 && |p2| >= 3 && |p3| >= 3 && |p4| >= 3 then
      Ok(Simplex3D(Mat(3, 4, [[p1[0], p2[0], p3[0], p4[0]],
                              [p1[1], p2[1], p3[1], p4[1]],
                              [p1[2], p2[2], p3[2], p4[2]]])))
    else
      Err(IndexOutOfBounds)
  }

  /** `new_from_array`: the matrix is stored as given. */
  function NewFromArray(points: Matrix): Simplex3D
  {
    Simplex3D(points)
  }

  /** `get_points`: a copy of the stored matrix. */
  function GetPoints(s: Simplex3D): Matrix
  {
    s.points
  }

  /** Point k (counting from 1) is column k - 1 of the stored matrix. */
  lemma PointsAreColumns(p1: seq<real>, p2: seq<real>, p3: seq<real>, p4: seq<real>)
    requires |p1| >= 3 && |p2| >= 3 && |p3| >= 3 && |p4| >= 3
    ensures NewFromPoints(p1, p2, p3, p4).Ok?
    ensures Column(GetPoints(NewFromPoints(p1, p2, p3, p4).value), 0) == p1[..3]
    ensures Column(GetPoints(NewFromPoints(p1, p2, p3, p4).value), 1) == p2[..3]
    ensures Column(GetPoints(NewFromPoints(p1, p2, p3, p4).value), 2) == p3[..3]
    ensures Column(GetPoints(NewFromPoints(p1, p2, p3, p4).value), 3) == p4[..3]
  {
    var m := GetPoints(NewFromPoints(p1, p2, p3, p4).value);
    assert Column(m, 0) == [p1[0], p1[1], p1[2]] == p1[..3];
    assert Column(m, 1) == [p2[0], p2[1], p2[2]] == p2[..3];
    assert Column(m, 2) == [p3[0], p3[1], p3[2]] == p3[..3];
    assert Column(m, 3) == [p4[0], p4[1], p4[2]] == p4[..3];
  }

  /** Storing a matrix and reading it back gives the same matrix, and
      rebuilding a tetrahedron from its points gives the same tetrahedron. */
  lemma ArrayRoundTrip(points: Matrix, s: Simplex3D)
    ensures GetPoints(NewFromArray(points)) == points
    ensures NewFromArray(GetPoints(s)) == s
  {
  }

  // ---------------------------------------------------------------------------
  // Volume

  /** The 3x3 matrix whose columns are the edges v1 - v0, v2 - v0, v3 - v0. */
  function EdgeMatrix(p: Matrix): (e: Matrix)
    requires p.rows >= 3 && p.cols >= 4
    ensures e.rows == 3 && e.cols == 3
    ensures forall i, j :: 0 <= i < 3 && 0 <= j < 3 ==> e.e[i][j] == p.e[i][j + 1] - p.e[i][0]
  {
    Mat(3, 3, seq(3, i requires 0 <= i < 3 => seq(3, j requires 0 <= j < 3 => p.e[i][j + 1] - p.e[i][0])))
  }

  /** The signed volume: a sixth of the determinant of the edge matrix. */
  function Volume(p: Matrix): real
    requires p.rows >= 3 && p.cols >= 4
  {
    Det3(EdgeMatrix(p)) / 6.0
  }

  /** `get_volume`: fills a 3x3 buffer with the edge vectors column by column
      and takes a sixth of its determinant. Reading a missing row or column
      of the stored points panics. */
  method GetVolume(s: Simplex3D) returns (r: Result<real>)
    ensures r.Ok? <==> s.points.rows >= 3 && s.points.cols >= 4
    ensures r.Ok? ==> r.value == Volume(s.points)
  {
    var p := s.points;
    if p.rows < 3 || p.cols < 4 {
      return Err(ShapeMismatch(p.rows, p.cols));
    }
    var po := new real[3, 3]((_, _) => 0.0);
    for i := 0 to 3
      invariant forall r, c :: 0 <= r < i && 0 <= c < 3 ==> po[r, c] == p.e[r][c + 1] - p.e[r][0]
    {
      po[i, 0] := p.e[i][1] - p.e[i][0];
      po[i, 1] := p.e[i][2] - p.e[i][0];
      po[i, 2] := p.e[i][3] - p.e[i][0];
    }
    MatEq(Entries(po), EdgeMatrix(p));
    var d := Det3x3(po);
    r := Ok(1.0 / 6.0 * d.value);
  }

  /** The reference tetrahedron with vertices 0, e1, e2, e3 has volume 1/6. */
  lemma ReferenceVolume()
    ensures Volume(Mat(3, 4, [[0.0, 1.0, 0.0, 0.0], [0.0, 0.0, 1.0, 0.0], [0.0, 0.0, 0.0, 1.0]])) == 1.0 / 6.0
  {
    var p := Mat(3, 4, [[0.0, 1.0, 0.0, 0.0], [0.0, 0.0, 1.0, 0.0], [0.0, 0.0, 0.0, 1.0]]);
    MatEq(EdgeMatrix(p), Identity(3));
  }

  /** The points p with every vertex moved by the vector t. */
  function Translate(p: Matrix, t: seq<real>): (q: Matrix)
    requires |t| == p.rows
    ensures q.rows == p.rows && q.cols == p.cols
    ensures forall i, j :: 0 <= i < p.rows && 0 <= j < p.cols ==> q.e[i][j] == p.e[i][j] + t[i]
  {
    Mat(p.rows, p.cols, seq(p.rows, i requires 0 <= i < p.rows => seq(p.cols, j requires 0 <= j < p.cols => p.e[i][j] + t[i])))
  }

  /** Moving the tetrahedron does not change its volume. */
  lemma VolumeTranslationInvariant(p: Matrix, t: seq<real>)
    requires p.rows >= 3 && p.cols >= 4 && |t| == p.rows
    ensures Volume(Translate(p, t)) == Volume(p)
  {
    MatEq(EdgeMatrix(Translate(p, t)), EdgeMatrix(p));
  }

  /** The points p with vertices 1 and 2 exchanged. */
  function SwapVertices12(p: Matrix): (q: Matrix)
    requires p.cols >= 4
    ensures q.rows == p.rows && q.cols == p.cols
    ensures forall i, j :: 0 <= i < p.rows && 0 <= j < p.cols ==>
      q.e[i][j] == p.e[i][if j == 1 then 2 else if j == 2 then 1 else j]
  {
    Mat(p.rows, p.cols, seq(p.rows, i requires 0 <= i < p.rows =>
      seq(p.cols, j requires 0 <= j < p.cols => p.e[i][if j == 1 then 2 else if j == 2 then 1 else j])))
  }

  /** Exchanging two vertices reverses the orientation: the signed volume changes sign. */
  lemma VolumeSwapNegates(p: Matrix)
    requires p.rows >= 3 && p.cols >= 4
    ensures Volume(SwapVertices12(p)) == -Volume(p)
  {
    var e := EdgeMatrix(p);
    var f := EdgeMatrix(SwapVertices12(p));
    assert f.e[0][0] == e.e[0][1] && f.e[0][1] == e.e[0][0] && f.e[0][2] == e.e[0][2];
    assert f.e[1][0] == e.e[1][1] && f.e[1][1] == e.e[1][0] && f.e[1][2] == e.e[1][2];
    assert f.e[2][0] == e.e[2][1] && f.e[2][1] == e.e[2][0] && f.e[2][2] == e.e[2][2];
  }

  // ---------------------------------------------------------------------------
  // Integrands and schemes

  /** `function_vec`: the first four entries of xi, in order; a shorter
      vector panics. */
  function FunctionVec(f: Integrand3D, xi: seq<real>, s: Simplex3D): (r: Result<real>)
    ensures r.Ok? <==> |xi| >= 4
  {
    if |xi| >= 4 then Ok(f(xi[0], xi[1], xi[2], xi[3], s)) else Err(IndexOutOfBounds)
  }

  /** Calling through the vector form is calling the function on the first
      four coordinates, in order; a shorter vector is the index panic. */
  lemma FunctionVecOfCoordinates(f: Integrand3D, xi: seq<real>, s: Simplex3D)
    ensures |xi| >= 4 ==> FunctionVec(f, xi, s) == Ok(f(xi[0], xi[1], xi[2], xi[3], s))
    ensures |xi| < 4 ==> FunctionVec(f, xi, s) == Err(IndexOutOfBounds)
  {
  }

  /** `integrate_simplex`: the scheme applied to the whole tetrahedron,
      whose transformation is the 4x4 identity. */
  function IntegrateSimplex<D>(rule: Rule3D<D>, f: Integrand3D, s: Simplex3D, cache: D): (real, D)
  {
    rule(Identity(4), f, s, cache)
  }
}
