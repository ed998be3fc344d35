/** Triangles in the plane, the integrands defined on them and the entry
    point of a 2D integration scheme. */
module Domain2D {
  import opened Wrappers
  import opened Matrices

  /** A triangle: its three vertices are the columns of a 2x3 matrix (any
      matrix is accepted by the array constructor). */
  datatype Simplex2D = Simplex2D(points: Matrix)

  /** A function of the barycentric coordinates (xi1, xi2, xi3) on a triangle. */
  type Integrand2D = (real, real, real, Simplex2D) -> real

  /** A scheme integrating an integrand over the sub-triangle that a 3x3
      transformation cuts out of the barycentric reference triangle. */
  type Rule2D = (Matrix, Integrand2D, Simplex2D) -> real

  /** `new_from_points`: the x coordinates form row 0 and the y coordinates
      row 1; indexing a point with fewer than two coordinates panics. */
  function NewFromPoints(p1: seq<real>, p2: seq<real>, p3: seq<real>): (r: Result<Simplex2D>)
    ensures r.Ok? <==> |p1| >= 2 && |p2| >= 2 && |p3| >= 2
    ensures r.Ok? ==> r.value.points.rows == 2 && r.value.points.cols == 3
  {
    if |p1| >= 2 && |p2| >= 2 && |p3| >= 2 then
      Ok(Simplex2D(Mat(2, 3, [[p1[0], p2[0], p3[0]], [p1[1], p2[1], p3[1]]])))
    else
      Err(IndexOutOfBounds)
  }

  /** `new_from_array`: the matrix is stored as given. */
  function NewFromArray(points: Matrix): Simplex2D
  {
    Simplex2D(points)
  }

  /** `get_points`: a copy of the stored matrix. */
  function GetPoints(s: Simplex2D): Matrix
  {
    s.points
  }

  /** Point k (counting from 1) is column k - 1 of the stored matrix. */
  lemma PointsAreColumns(p1: seq<real>, p2: seq<real>, p3: seq<real>)
    requires |p1| >= 2 && |p2| >= 2 && |p3| >= 2
    ensures NewFromPoints(p1, p2, p3).Ok?
    ensures Column(GetPoints(NewFromPoints(p1, p2, p3).value), 0) == p1[..2]
    ensures Column(GetPoints(NewFromPoints(p1, p2, p3).value), 1) == p2[..2]
    ensures Column(GetPoints(NewFromPoints(p1, p2, p3).value), 2) == p3[..2]
  {
    var m := GetPoints(NewFromPoints(p1, p2, p3).value);
    assert Column(m, 0) == [p1[0], p1[1]] == p1[..2];
    assert Column(m, 1) == [p2[0], p2[1]] == p2[..2];
    assert Column(m, 2) == [p3[0], p3[1]] == p3[..2];
  }

  /** Storing a matrix and reading it back gives the same matrix, and
      rebuilding a triangle from its points gives the same triangle. */
  lemma ArrayRoundTrip(points: Matrix, s: Simplex2D)
    ensures GetPoints(NewFromArray(points)) == points
    ensures NewFromArray(GetPoints(s)) == s
  {
  }

  /** `function_vec`: the first three entries of xi, in order; a shorter
      vector panics. */
  function FunctionVec(f: Integrand2D, xi: seq<real>, s: Simplex2D): (r: Result<real>)
    ensures r.Ok? <==> |xi| >= 3
  {
    if |xi| >= 3 then Ok(f(xi[0], xi[1], xi[2], s)) else Err(IndexOutOfBounds)
  }

  /** Calling through the vector form is calling the function on the first
      three coordinates, in order; a shorter vector is the index panic. */
  lemma FunctionVecOfCoordinates(f: Integrand2D, xi: seq<real>, s: Simplex2D)
    ensures |xi| >= 3 ==> FunctionVec(f, xi, s) == Ok(f(xi[0], xi[1], xi[2], s))
    ensures |xi| < 3 ==> FunctionVec(f, xi, s) == Err(IndexOutOfBounds)
  {
  }

  /** `integrate`: the scheme applied to the whole triangle, whose
      transformation is the 3x3 identity. */
  function Integrate(rule: Rule2D, f: Integrand2D, s: Simplex2D): real
  {
    rule(Identity(3), f, s)
  }
}
