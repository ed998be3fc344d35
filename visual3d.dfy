/** The orientation checker: a stand-in integration scheme that does not
    integrate but evaluates the integrand at the four vertices of the
    sub-tetrahedron it is given, so that figures can show which vertex is
    which. */
module Visual3D {
  import opened Wrappers
  import opened Matrices
  import opened Domain3D
  import opened Functions3D

  /** `point_order`: the barycentric coordinates of vertex n; any number
      past the last vertex falls back to vertex 0. */
  function PointOrder(n: nat): (v: seq<real>)
    ensures v == UnitVector(4, if n < 4 then n else 0)
  {
    match n
    case 0 => [1.0, 0.0, 0.0, 0.0]
    case 1 => [0.0, 1.0, 0.0, 0.0]
    case 2 => [0.0, 0.0, 1.0, 0.0]
    case 3 => [0.0, 0.0, 0.0, 1.0]
    case _ => PointOrder(0)
  }

  /** The sum of the integrand over the images of the first n vertices, in
      order, starting from 0; the product with a transformation that does
      not have 4 columns panics, and so does reading a fourth coordinate
      from an image with fewer than 4 rows. */
  function Probes(t: Matrix, f: Integrand3D, s: Simplex3D, n: nat): Result<real>
    requires n <= 4
  {
    if n == 0 then Ok(0.0)
    else
      match Probes(t, f, s, n - 1)
      case Err(e) => Err(e)
      case Ok(acc) =>
        if t.cols != 4 then Err(ShapeMismatch(t.rows, t.cols))
        else
          match FunctionVec(f, MulVec(t, PointOrder(n - 1)), s)
          case Err(e) => Err(e)
          case Ok(v) => Ok(acc + v)
  }

  /** `integrate_over_domain` of the orientation checker. */
  method IntegrateOverDomain(t: Matrix, f: Integrand3D, s: Simplex3D) returns (r: Result<real>)
    ensures r == Probes(t, f, s, 4)
  {
    var result := 0.0;
    for i := 0 to 4
      invariant Probes(t, f, s, i) == Ok(result)
    {
      var point := PointOrder(i);
      if t.cols != 4 {
        ErrorStays(t, f, s, i + 1);
        return Err(ShapeMismatch(t.rows, t.cols));
      }
      point := MulVec(t, point);
      var v := FunctionVec(f, point, s);
      if v.Err? {
        ErrorStays(t, f, s, i + 1);
        return Err(v.error);
      }
      result := result + v.value;
    }
    r := Ok(result);
  }

  /** Once a probe has panicked, the remaining ones are not made. */
  lemma {:induction false} ErrorStays(t: Matrix, f: Integrand3D, s: Simplex3D, n: nat)
    requires n <= 4 && Probes(t, f, s, n).Err?
    ensures Probes(t, f, s, 4) == Probes(t, f, s, n)
    decreases 4 - n
  {
    if n < 4 {
      ErrorStays(t, f, s, n + 1);
    }
  }

  /** The integrand at the vertex that column j of t stands for. */
  function AtColumn(t: Matrix, f: Integrand3D, s: Simplex3D, j: nat): real
    requires t.rows >= 4 && j < t.cols
  {
    f(t.e[0][j], t.e[1][j], t.e[2][j], t.e[3][j], s)
  }

  /** The checker succeeds exactly on transformations with 4 columns and at
      least 4 rows, and then yields the plain, unweighted sum of the
      integrand at the four columns of the transformation, in order. */
  lemma {:induction false} ProbesAreColumns(t: Matrix, f: Integrand3D, s: Simplex3D, n: nat)
    requires n <= 4
    ensures n > 0 ==> (Probes(t, f, s, n).Ok? <==> t.cols == 4 && t.rows >= 4)
    ensures Probes(t, f, s, n).Ok? && t.cols == 4 ==>
      Probes(t, f, s, n).value == ColumnSum(t, f, s, n)
  {
    if n > 0 {
      ProbesAreColumns(t, f, s, n - 1);
      if t.cols == 4 {
        MulUnitVector(t, n - 1);
        var col := MulVec(t, PointOrder(n - 1));
        assert |col| == t.rows;
        if t.rows >= 4 {
          assert col[0] == t.e[0][n - 1] && col[1] == t.e[1][n - 1] && col[2] == t.e[2][n - 1] && col[3] == t.e[3][n - 1];
        }
      }
    }
  }

  /** The integrand summed over the first n columns of t. */
  function ColumnSum(t: Matrix, f: Integrand3D, s: Simplex3D, n: nat): real
    requires t.cols == 4 && n <= 4
  {
    if n == 0 || t.rows < 4 then 0.0 else ColumnSum(t, f, s, n - 1) + AtColumn(t, f, s, n - 1)
  }

  /** On the whole reference tetrahedron the checker visits its four
      vertices e1, e2, e3, e4 in order. */
  lemma IdentityVisitsVertices(f: Integrand3D, s: Simplex3D)
    ensures Probes(Identity(4), f, s, 4)
      == Ok(f(1.0, 0.0, 0.0, 0.0, s) + f(0.0, 1.0, 0.0, 0.0, s) + f(0.0, 0.0, 1.0, 0.0, s) + f(0.0, 0.0, 0.0, 1.0, s))
  {
    var id := Identity(4);
    ProbesAreColumns(id, f, s, 4);
    assert ColumnSum(id, f, s, 1) == f(1.0, 0.0, 0.0, 0.0, s);
    assert ColumnSum(id, f, s, 2) == ColumnSum(id, f, s, 1) + f(0.0, 1.0, 0.0, 0.0, s);
    assert ColumnSum(id, f, s, 3) == ColumnSum(id, f, s, 2) + f(0.0, 0.0, 1.0, 0.0, s);
  }

  /** The constant integrand makes the checker count the vertices: 4. */
  lemma ConstantCountsVertices(t: Matrix, s: Simplex3D)
    requires t.cols == 4 && t.rows >= 4
    ensures Probes(t, Constant, s, 4) == Ok(4.0)
  {
    var one := Constant;
    ProbesAreColumns(t, one, s, 4);
    assert ColumnSum(t, one, s, 1) == 1.0;
    assert ColumnSum(t, one, s, 2) == 2.0;
    assert ColumnSum(t, one, s, 3) == 3.0;
  }
}
