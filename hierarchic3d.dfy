/** The adaptive hierarchic integrator on tetrahedra. A tetrahedron splits
    into four corner tetrahedra (labels 1 to 4) and one inner octahedron
    (label 13); an octahedron splits into eight tetrahedra (labels 5 to 12)
    and six octahedra (labels 14 to 19). Every label has a barycentric
    table: a tetrahedron is mapped by a 4x4 table from the reference
    tetrahedron, an octahedron by a table with six columns from the
    reference octahedron, which is itself integrated as four tetrahedra.
    The refinement pass is the one of the shared refinement module; this
    module supplies the estimate, the sub-cell labels and the loops of the
    source, and proves that with the corrected tables and products the
    integrator never panics. The source as written is kept beside the
    corrected definitions where the two differ. */
module Hierarchic3D {
  import opened Wrappers
  import opened Matrices
  import opened Common
  import opened CacheTree
  import opened Domain3D
  import opened Refinement

  /** The integrator's configuration: the base rule for tetrahedra, whether
      the cache is frozen, and the refinement threshold. */
  datatype Hierarchic3DIntegrator = Hierarchic3DIntegrator(base: Rule3D<IntegratorDummy>, consolidated: bool, precision: real)

  // ---------------------------------------------------------------------------
  // Domain numbers

  /** `is_tetrahedron_domain_number`: labels 0 to 12 are tetrahedra, 13 to 19
      octahedra, and any larger label panics. */
  function IsTetrahedronDomain(n: nat): (r: Result<bool>)
    ensures r.Ok? <==> n <= 19
    ensures r.Err? ==> r.error == IllegalDomainNumber(n)
  {
    if n > 19 then Err(IllegalDomainNumber(n)) else Ok(n < 13)
  }

  /** `is_octahedron_domain_number`: the negation, with the same panic. */
  function IsOctahedronDomain(n: nat): (r: Result<bool>)
    ensures r.Ok? <==> IsTetrahedronDomain(n).Ok?
  {
    match IsTetrahedronDomain(n)
    case Err(e) => Err(e)
    case Ok(b) => Ok(!b)
  }

  /** The classification agrees with the tables: a label names a
      tetrahedron exactly when its table maps from the four vertices of the
      reference tetrahedron, and an octahedron exactly when its table maps
      from the six vertices of the reference octahedron. */
  lemma DomainNumbersMatchTables(n: nat)
    requires 1 <= n <= 19
    ensures IsTetrahedronDomain(n).value <==> Subdivision(n).value.cols == 4
    ensures IsOctahedronDomain(n).value <==> Subdivision(n).value.cols == 6
  {
  }

  // ---------------------------------------------------------------------------
  // Subdivision tables

  /** Entry (i, j) of the corner tetrahedron at vertex k (1 to 4): column j
      is the midpoint of vertex k and vertex j + 1, which is vertex k itself
      when j + 1 == k. */
  function CornerEntry(k: nat, i: nat, j: nat): real
  {
    (if i + 1 == k then 0.5 else 0.0) + (if i == j then 0.5 else 0.0)
  }

  function CornerTable(k: nat): (m: Matrix)
    ensures m.rows == 4 && m.cols == 4
    ensures forall i, j :: 0 <= i < 4 && 0 <= j < 4 ==> m.e[i][j] == CornerEntry(k, i, j)
  {
    Mat(4, 4, seq(4, i requires 0 <= i < 4 => seq(4, j requires 0 <= j < 4 => CornerEntry(k, i, j))))
  }

  function OctahedralTable(n: nat): (m: Matrix)
    requires 5 <= n <= 19
    ensures m.rows == (if n == 13 then 4 else 6) && m.cols == (if n < 13 then 4 else 6)
  {
    if n == 5 then Mat(6, 4, [[0.5, 0.5, 0.0, 0.5], [0.0, 0.5, 0.5, 0.0], [0.5, 0.0, 0.5, 0.0], [0.0, 0.0, 0.0, 0.0], [0.0, 0.0, 0.0, 0.0], [0.0, 0.0, 0.0, 0.5]])
    else if n == 6 then Mat(6, 4, [[0.5, 0.0, 0.5, 0.5], [0.0, 0.0, 0.0, 0.0], [0.5, 0.5, 0.0, 0.0], [0.0, 0.5, 0.5, 0.0], [0.0, 0.0, 0.0, 0.0], [0.0, 0.0, 0.0, 0.5]])
    else if n == 7 then Mat(6, 4, [[0.5, 0.0, 0.5, 0.5], [0.0, 0.0, 0.0, 0.0], [0.0, 0.0, 0.0, 0.0], [0.5, 0.5, 0.0, 0.0], [0.0, 0.5, 0.5, 0.0], [0.0, 0.0, 0.0, 0.5]])
    else if n == 8 then Mat(6, 4, [[0.0, 0.5, 0.0, 0.5], [0.0, 0.0, 0.0, 0.0], [0.0, 0.0, 0.0, 0.0], [0.5, 0.0, 0.5, 0.0], [0.5, 0.5, 0.0, 0.0], [0.0, 0.0, 0.5, 0.5]])
    else if n == 9 then Mat(6, 4, [[0.0, 0.5, 0.0, 0.5], [0.0, 0.0, 0.0, 0.0], [0.5, 0.0, 0.5, 0.0], [0.0, 0.0, 0.5, 0.0], [0.0, 0.5, 0.0, 0.0], [0.5, 0.0, 0.0, 0.5]])
    else if n == 10 then Mat(6, 4, [[0.0, 0.0, 0.0, 0.5], [0.5, 0.0, 0.5, 0.0], [0.5, 0.5, 0.0, 0.0], [0.0, 0.0, 0.0, 0.0], [0.0, 0.0, 0.0, 0.0], [0.0, 0.5, 0.5, 0.5]])
    else if n == 11 then Mat(6, 4, [[0.0, 0.5, 0.0, 0.5], [0.5, 0.5, 0.5, 0.0], [0.5, 0.0, 0.0, 0.0], [0.0, 0.0, 0.0, 0.0], [0.0, 0.0, 0.5, 0.0], [0.0, 0.0, 0.0, 0.5]])
    else if n == 12 then Mat(6, 4, [[0.0, 0.0, 0.0, 0.5], [0.5, 0.0, 0.5, 0.0], [0.0, 0.0, 0.0, 0.0], [0.0, 0.5, 0.0, 0.0], [0.5, 0.0, 0.0, 0.0], [0.0, 0.5, 0.5, 0.5]])
    else if n == 13 then Mat(4, 6, [[0.5, 0.0, 0.5, 0.5, 0.0, 0.0], [0.5, 0.5, 0.0, 0.0, 0.5, 0.0], [0.0, 0.5, 0.5, 0.0, 0.0, 0.5], [0.0, 0.0, 0.0, 0.5, 0.5, 0.5]])
    else if n == 14 then Mat(6, 6, [[1.0, 0.5, 0.5, 0.5, 0.5, 0.5], [0.0, 0.0, 0.0, 0.0, 0.5, 0.0], [0.0, 0.5, 0.0, 0.0, 0.0, 0.0], [0.0, 0.0, 0.5, 0.0, 0.0, 0.0], [0.0, 0.0, 0.0, 0.5, 0.0, 0.0], [0.0, 0.0, 0.0, 0.0, 0.0, 0.5]])
    else if n == 15 then Mat(6, 6, [[0.0, 0.0, 0.5, 0.0, 0.0, 0.5], [1.0, 0.5, 0.5, 0.5, 0.5, 0.0], [0.0, 0.0, 0.0, 0.5, 0.0, 0.0], [0.0, 0.0, 0.0, 0.0, 0.0, 0.0], [0.0, 0.5, 0.0, 0.0, 0.0, 0.0], [0.0, 0.0, 0.0, 0.0, 0.5, 0.5]])
    else if n == 16 then Mat(6, 6, [[0.0, 0.5, 0.0, 0.0, 0.0, 0.5], [0.0, 0.0, 0.0, 0.0, 0.5, 0.0], [1.0, 0.5, 0.5, 0.5, 0.5, 0.0], [0.0, 0.0, 0.5, 0.0, 0.0, 0.0], [0.0, 0.0, 0.0, 0.0, 0.0, 0.0], [0.0, 0.0, 0.0, 0.5, 0.0, 0.5]])
    else if n == 17 then Mat(6, 6, [[0.0, 0.0, 0.5, 0.0, 0.5, 0.5], [0.0, 0.0, 0.0, 0.0, 0.0, 0.0], [0.0, 0.5, 0.0, 0.0, 0.0, 0.0], [1.0, 0.5, 0.5, 0.5, 0.0, 0.0], [0.0, 0.0, 0.0, 0.5, 0.5, 0.0], [0.0, 0.0, 0.0, 0.0, 0.0, 0.5]])
    else if n == 18 then Mat(6, 6, [[0.0, 0.0, 0.5, 0.0, 0.0, 0.5], [0.0, 0.0, 0.0, 0.5, 0.0, 0.0], [0.0, 0.0, 0.0, 0.0, 0.0, 0.0], [0.0, 0.5, 0.0, 0.0, 0.5, 0.0], [1.0, 0.5, 0.5, 0.5, 0.0, 0.0], [0.0, 0.0, 0.0, 0.0, 0.5, 0.5]])
    else Mat(6, 6, [[0.0, 0.0, 0.5, 0.0, 0.0, 0.5], [0.0, 0.0, 0.0, 0.0, 0.5, 0.0], [0.0, 0.5, 0.0, 0.0, 0.0, 0.0], [0.0, 0.0, 0.0, 0.5, 0.0, 0.0], [0.0, 0.0, 0.5, 0.0, 0.0, 0.0], [1.0, 0.5, 0.0, 0.5, 0.5, 0.5]])
  }

  function AsWrittenCorner(n: nat): (m: Matrix)
    requires 1 <= n <= 4
    ensures m.rows == 4 && m.cols == 4
  {
    if n == 1 then Mat(4, 4, [[1.0, 0.5, 0.5, 0.5], [0.0, 0.5, 0.0, 0.0], [0.0, 0.0, 0.5, 0.0], [0.0, 0.0, 0.0, 0.5]])
    else if n == 2 then Mat(4, 4, [[0.5, 0.0, 0.0, 0.0], [0.5, 1.0, 0.5, 0.5], [0.0, 0.0, 0.5, 0.0], [0.0, 0.0, 0.0, 0.5]])
    else if n == 3 then Mat(4, 4, [[0.5, 0.5, 0.0, 0.0], [0.0, 0.0, 0.0, 0.0], [0.5, 0.0, 1.0, 0.5], [0.0, 0.5, 0.0, 0.5]])
    else Mat(4, 4, [[0.5, 0.0, 0.0, 0.0], [0.0, 0.5, 0.0, 0.0], [0.0, 0.0, 0.5, 0.0], [0.5, 0.5, 0.5, 1.0]])
  }

  function OctaSub(i: nat): (m: Matrix)
    requires i < 4
    ensures m.rows == 6 && m.cols == 4
  {
    if i == 0 then Mat(6, 4, [[0.0, 0.0, 1.0, 0.0], [0.0, 0.0, 0.0, 0.0], [1.0, 0.0, 0.0, 0.0], [0.0, 1.0, 0.0, 0.0], [0.0, 0.0, 0.0, 1.0], [0.0, 0.0, 0.0, 0.0]])
    else if i == 1 then Mat(6, 4, [[0.0, 1.0, 0.0, 0.0], [0.0, 0.0, 1.0, 0.0], [1.0, 0.0, 0.0, 0.0], [0.0, 0.0, 0.0, 0.0], [0.0, 0.0, 0.0, 1.0], [0.0, 0.0, 0.0, 0.0]])
    else if i == 2 then Mat(6, 4, [[0.0, 0.0, 0.0, 0.0], [0.0, 1.0, 0.0, 0.0], [1.0, 0.0, 0.0, 0.0], [0.0, 0.0, 0.0, 0.0], [0.0, 0.0, 0.0, 1.0], [0.0, 0.0, 1.0, 0.0]])
    else Mat(6, 4, [[0.0, 0.0, 0.0, 0.0], [0.0, 0.0, 0.0, 0.0], [1.0, 0.0, 0.0, 0.0], [0.0, 0.0, 1.0, 0.0], [0.0, 0.0, 0.0, 1.0], [0.0, 1.0, 0.0, 0.0]])
  }

  /** `subdivision_transformations` with table 3 corrected to the corner
      tetrahedron at vertex 3; any other label has no table. */
  function Subdivision(n: nat): (r: Result<Matrix>)
    ensures r.Ok? <==> 1 <= n <= 19
    ensures r.Ok? ==> r.value.rows == (if n <= 4 || n == 13 then 4 else 6)
    ensures r.Ok? ==> r.value.cols == (if n < 13 then 4 else 6)
    ensures r.Err? ==> r.error == NoTransformation(n)
  {
    if 1 <= n <= 4 then Ok(CornerTable(n))
    else if 5 <= n <= 19 then Ok(OctahedralTable(n))
    else Err(NoTransformation(n))
  }

  /** `subdivision_transformations` as written. */
  function SubdivisionAsWritten(n: nat): (r: Result<Matrix>)
    ensures r.Ok? <==> Subdivision(n).Ok?
    ensures r.Ok? ==> r.value.rows == Subdivision(n).value.rows && r.value.cols == Subdivision(n).value.cols
  {
    if 1 <= n <= 4 then Ok(AsWrittenCorner(n)) else Subdivision(n)
  }

  /** The tables as written agree with the corrected ones everywhere but at
      label 3, whose column 1 is the midpoint of vertices 1 and 4 where the
      corner tetrahedron at vertex 3 has the midpoint of vertices 2 and 3. */
  lemma CornerTablesAsWritten(n: nat)
    ensures n != 3 ==> SubdivisionAsWritten(n) == Subdivision(n)
    ensures n == 3 ==> Column(SubdivisionAsWritten(3).value, 1) == [0.5, 0.0, 0.0, 0.5]
    ensures n == 3 ==> Column(Subdivision(3).value, 1) == [0.0, 0.5, 0.5, 0.0]
  {
    if 1 <= n <= 4 && n != 3 {
      MatEq(AsWrittenCorner(n), CornerTable(n));
    }
  }

  /** Every table maps barycentric coordinates to barycentric coordinates
      and has vertices and edge midpoints as its columns. */
  lemma SubdivisionBarycentric(n: nat)
    requires 1 <= n <= 19
    ensures UnitColumns(Subdivision(n).value) && HalfEntries(Subdivision(n).value)
  {
    if n <= 4 {
      CornerBarycentric(n);
    } else if n <= 12 {
      InnerTetrahedraBarycentric(n);
    } else {
      InnerOctahedraBarycentric(n);
    }
  }

  lemma CornerBarycentric(n: nat)
    requires 1 <= n <= 4
    ensures UnitColumns(CornerTable(n)) && HalfEntries(CornerTable(n))
  {
    var m := CornerTable(n);
    forall j | 0 <= j < 4
      ensures ColSum(m, j) == 1.0
    {
      ColSumUnrolled(m, j);
    }
  }

  lemma InnerTetrahedraBarycentric(n: nat)
    requires 5 <= n <= 12
    ensures UnitColumns(OctahedralTable(n)) && HalfEntries(OctahedralTable(n))
  {
    if n <= 8 {
      TetrahedraBarycentricLow(n);
    } else {
      TetrahedraBarycentricHigh(n);
    }
  }

  lemma TetrahedraBarycentricLow(n: nat)
    requires 5 <= n <= 8
    ensures UnitColumns(OctahedralTable(n)) && HalfEntries(OctahedralTable(n))
  {
    var m := OctahedralTable(n);
    forall j | 0 <= j < 4
      ensures ColSum(m, j) == 1.0
    {
      ColSumUnrolled(m, j);
    }
  }

  lemma TetrahedraBarycentricHigh(n: nat)
    requires 9 <= n <= 12
    ensures UnitColumns(OctahedralTable(n)) && HalfEntries(OctahedralTable(n))
  {
    var m := OctahedralTable(n);
    forall j | 0 <= j < 4
      ensures ColSum(m, j) == 1.0
    {
      ColSumUnrolled(m, j);
    }
  }

  lemma InnerOctahedraBarycentric(n: nat)
    requires 13 <= n <= 19
    ensures UnitColumns(OctahedralTable(n)) && HalfEntries(OctahedralTable(n))
  {
    if n <= 16 {
      OctahedraBarycentricLow(n);
    } else {
      OctahedraBarycentricHigh(n);
    }
  }

  lemma OctahedraBarycentricLow(n: nat)
    requires 13 <= n <= 16
    ensures UnitColumns(OctahedralTable(n)) && HalfEntries(OctahedralTable(n))
  {
    var m := OctahedralTable(n);
    forall j | 0 <= j < 6
      ensures ColSum(m, j) == 1.0
    {
      ColSumUnrolled(m, j);
    }
  }

  lemma OctahedraBarycentricHigh(n: nat)
    requires 17 <= n <= 19
    ensures UnitColumns(OctahedralTable(n)) && HalfEntries(OctahedralTable(n))
  {
    var m := OctahedralTable(n);
    forall j | 0 <= j < 6
      ensures ColSum(m, j) == 1.0
    {
      ColSumUnrolled(m, j);
    }
  }

  lemma ColSumUnrolled(m: Matrix, j: nat)
    requires j < m.cols && (m.rows == 4 || m.rows == 6)
    ensures m.rows == 4 ==> ColSum(m, j) == m.e[0][j] + m.e[1][j] + m.e[2][j] + m.e[3][j]
    ensures m.rows == 6 ==> ColSum(m, j) == m.e[0][j] + m.e[1][j] + m.e[2][j] + m.e[3][j] + m.e[4][j] + m.e[5][j]
  {
  }

  /** Table 3 as written has a zero second row: every point of the
      sub-cell it maps to has barycentric coordinate 0 at vertex 2, so the
      sub-cell lies in the face opposite vertex 2 and has no volume. The
      corrected table reaches vertex 2's coordinate 1/2 at its second column. */
  lemma AsWrittenCornerIsFlat(x: seq<real>)
    requires |x| == 4
    ensures MulVec(SubdivisionAsWritten(3).value, x)[1] == 0.0
    ensures MulVec(Subdivision(3).value, UnitVector(4, 1))[1] == 0.5
  {
    var m := SubdivisionAsWritten(3).value;
    SumFZero(4, RowTimesVec(m, x, 1));
    MulUnitVector(Subdivision(3).value, 1);
  }

  /** Each corner tetrahedron has an eighth of the volume of its parent:
      the determinant of its table is 1/8. */
  lemma CornerVolume(k: nat)
    requires 1 <= k <= 4
    ensures Det4(CornerTable(k)) == 0.125
  {
    var m := CornerTable(k);
    Det4Terms(m);
    CornerTopCofactor(k);
    CornerLowerCofactor(k, 1);
    CornerLowerCofactor(k, 2);
    CornerLowerCofactor(k, 3);
  }

  /** Below row 0, column 0 of corner table k holds 1/2 only in row k - 1,
      and the minor of that row keeps row 0, which is zero from column 1 on. */
  lemma CornerLowerCofactor(k: nat, i: nat)
    requires 1 <= k <= 4 && 1 <= i < 4
    ensures Cofactor(CornerTable(k), i) == 0.0
  {
    var m := CornerTable(k);
    if i + 1 == k {
      assert m.e[0][1] == 0.0 && m.e[0][2] == 0.0 && m.e[0][3] == 0.0;
      MinorZeroRow(m, i, 0);
    } else {
      assert m.e[i][0] == 0.0;
    }
  }

  /** The cofactor of entry (0, 0) of corner table k: the vertex itself
      when k is 1, the midpoint of vertices 1 and k otherwise. */
  lemma CornerTopCofactor(k: nat)
    requires 1 <= k <= 4
    ensures Cofactor(CornerTable(k), 0) == 0.125
  {
    var m := CornerTable(k);
    CornerTopMinor(k);
    assert m.e[0][0] == (if k == 1 then 1.0 else 0.5);
  }

  /** The minor of entry (0, 0) of corner table k, written out, and its
      determinant. */
  lemma CornerTopMinor(k: nat)
    requires 1 <= k <= 4
    ensures Det3(Minor(CornerTable(k), 0)) == (if k == 1 then 0.125 else 0.25)
  {
    var a: Matrix;
    if k == 1 {
      a := Mat(3, 3, [[0.5, 0.0, 0.0], [0.0, 0.5, 0.0], [0.0, 0.0, 0.5]]);
      assert Det3(a) == 0.125;
    } else if k == 2 {
      a := Mat(3, 3, [[1.0, 0.5, 0.5], [0.0, 0.5, 0.0], [0.0, 0.0, 0.5]]);
      assert Det3(a) == 0.25;
    } else if k == 3 {
      a := Mat(3, 3, [[0.5, 0.0, 0.0], [0.5, 1.0, 0.5], [0.0, 0.0, 0.5]]);
      assert Det3(a) == 0.25;
    } else {
      a := Mat(3, 3, [[0.5, 0.0, 0.0], [0.0, 0.5, 0.0], [0.5, 0.5, 1.0]]);
      assert Det3(a) == 0.25;
    }
    CornerMinorEntries(k, a);
  }

  /** A 3x3 matrix holding the corner entries of rows 1-3 and columns 1-3
      is the minor of entry (0, 0). */
  lemma CornerMinorEntries(k: nat, a: Matrix)
    requires 1 <= k <= 4 && a.rows == 3 && a.cols == 3
    requires forall j, c :: 0 <= j < 3 && 0 <= c < 3 ==> a.e[j][c] == CornerEntry(k, j + 1, c + 1)
    ensures Minor(CornerTable(k), 0) == a
  {
    MatEq(Minor(CornerTable(k), 0), a);
  }

  /** Table 3 as written has determinant 0: its cell has no volume. */
  lemma AsWrittenCornerVolume()
    ensures Det4(AsWrittenCorner(3)) == 0.0
  {
    var m := AsWrittenCorner(3);
    Det4Terms(m);
    AsWrittenCornerCofactor(0);
    AsWrittenCornerCofactor(1);
    AsWrittenCornerCofactor(2);
    AsWrittenCornerCofactor(3);
  }

  /** Every cofactor of table 3 as written vanishes: rows 1 and 3 have a
      zero in column 0, and the minors of rows 0 and 2 keep the zero row 1. */
  lemma AsWrittenCornerCofactor(i: nat)
    requires i < 4
    ensures Cofactor(AsWrittenCorner(3), i) == 0.0
  {
    var m := AsWrittenCorner(3);
    if i == 0 || i == 2 {
      assert m.e[1][1] == 0.0 && m.e[1][2] == 0.0 && m.e[1][3] == 0.0;
      MinorZeroRow(m, i, 1);
    } else {
      assert m.e[i][0] == 0.0;
    }
  }

  /** The vertex of the reference octahedron that column j of the piece i
      of `octahedron_subdivisions` selects: every piece has vertices 2 and
      4 (counting from 0), the diagonal along which the octahedron is cut,
      and two neighbours on the ring 3, 0, 1, 5 around it. */
  function PieceVertex(i: nat, j: nat): (k: nat)
    requires i < 4 && j < 4
    ensures k < 6
  {
    var ring := [3, 0, 1, 5];
    [2, ring[i], ring[(i + 1) % 4], 4][j]
  }

  /** The pieces of `octahedron_subdivisions` only select vertices. */
  lemma OctaSubSelects(i: nat, j: nat)
    requires i < 4 && j < 4
    ensures Column(OctaSub(i), j) == UnitVector(6, PieceVertex(i, j))
  {
  }

  // ---------------------------------------------------------------------------
  // Transformations

  /** The product T(path[|path| - 2]) * ... * T(path[|path| - 1 - n]):
      the first n maps below the root, composed from the root down. */
  function Descend(path: seq<nat>, n: nat): (r: Result<Matrix>)
    requires n < |path|
    ensures r.Ok? ==> r.value.rows == 4
    decreases n
  {
    if n == 0 then Ok(Identity(4))
    else match Descend(path, n - 1)
      case Err(e) => Err(e)
      case Ok(acc) =>
        match Subdivision(path[|path| - 1 - n])
        case Err(e) => Err(e)
        case Ok(m) => Dot(acc, m)
  }

  /** The map of the cell whose labels, leaf first, are `path`, as
      `get_transformation` evidently intends it: the product of the tables
      of every label but the root's, root side first; an empty path panics. */
  function Transformation(path: seq<nat>): (r: Result<Matrix>)
    ensures r.Ok? ==> |path| > 0 && r.value.rows == 4
  {
    if |path| == 0 then Err(EmptyPath) else Descend(path, |path| - 1)
  }

  /** `get_transformation` with the loop running from the root down. */
  method GetTransformation(path: seq<nat>) returns (r: Result<Matrix>)
    ensures r == Transformation(path)
  {
    if |path| == 0 {
      return Err(EmptyPath);
    }
    var result := Identity(4);
    var k := |path| - 1;
    while k > 0
      invariant 0 <= k < |path|
      invariant Descend(path, |path| - 1 - k) == Ok(result)
    {
      k := k - 1;
      var current := Subdivision(path[k]);
      if current.Err? {
        DescendErrorStays(path, |path| - 1 - k, |path| - 1);
        return Err(current.error);
      }
      var next := Dot(result, current.value);
      if next.Err? {
        DescendErrorStays(path, |path| - 1 - k, |path| - 1);
        return Err(next.error);
      }
      result := next.value;
    }
    return Ok(result);
  }

  lemma {:induction false} DescendErrorStays(path: seq<nat>, n: nat, m: nat)
    requires n <= m < |path| && Descend(path, n).Err?
    ensures Descend(path, m) == Descend(path, n)
    decreases m
  {
    if m > n {
      DescendErrorStays(path, n, m - 1);
    }
  }

  lemma {:induction false} DescendPrefix(l: nat, path: seq<nat>, n: nat)
    requires n < |path|
    ensures Descend([l] + path, n) == Descend(path, n)
  {
    if n > 0 {
      DescendPrefix(l, path, n - 1);
      assert ([l] + path)[|path| - n] == path[|path| - 1 - n];
    }
  }

  /** Sub-cell l of the cell at `path` has the cell's map followed by the
      table of l: no associativity is needed when the product is formed
      from the root down. */
  lemma ChildTransformation(l: nat, path: seq<nat>)
    requires |path| > 0
    ensures Transformation([l] + path) ==
      match Transformation(path)
      case Err(e) => Err(e)
      case Ok(m) => (match Subdivision(l) case Err(e) => Err(e) case Ok(s) => Dot(m, s))
  {
    DescendPrefix(l, path, |path| - 1);
    assert ([l] + path)[0] == l;
  }

  /** Every map built from the root down is a barycentric map. */
  lemma {:induction false} DescendBarycentric(path: seq<nat>, n: nat)
    requires n < |path| && Descend(path, n).Ok?
    ensures UnitColumns(Descend(path, n).value)
  {
    if n == 0 {
      IdentityUnitColumns(4);
    } else {
      DescendBarycentric(path, n - 1);
      SubdivisionBarycentric(path[|path| - 1 - n]);
      MulUnitColumns(Descend(path, n - 1).value, Subdivision(path[|path| - 1 - n]).value);
    }
  }

  /** The root's map is the identity, whatever its label. */
  lemma RootTransformation(n: nat)
    ensures Transformation([n]) == Ok(Identity(4))
  {
  }

  /** The loop of `get_transformation` as written: it multiplies on the
      right from the leaf up, I * T(path[0]) * ... * T(path[n - 1]). */
  function LeafFirst(path: seq<nat>, n: nat): (r: Result<Matrix>)
    requires n <= |path|
    ensures r.Ok? ==> r.value.rows == 4
  {
    if n == 0 then Ok(Identity(4))
    else match LeafFirst(path, n - 1)
      case Err(e) => Err(e)
      case Ok(acc) =>
        match SubdivisionAsWritten(path[n - 1])
        case Err(e) => Err(e)
        case Ok(m) => Dot(acc, m)
  }

  function TransformationAsWritten(path: seq<nat>): (r: Result<Matrix>)
    ensures r.Ok? ==> |path| > 0
  {
    if |path| == 0 then Err(EmptyPath) else LeafFirst(path, |path| - 1)
  }

  /** `get_transformation` as written. */
  method GetTransformationAsWritten(path: seq<nat>) returns (r: Result<Matrix>)
    ensures r == TransformationAsWritten(path)
  {
    if |path| == 0 {
      return Err(EmptyPath);
    }
    var result := Identity(4);
    for i := 0 to |path| - 1
      invariant LeafFirst(path, i) == Ok(result)
    {
      var current := SubdivisionAsWritten(path[i]);
      if current.Err? {
        LeafFirstErrorStays(path, i + 1, |path| - 1);
        return Err(current.error);
      }
      var next := Dot(result, current.value);
      if next.Err? {
        LeafFirstErrorStays(path, i + 1, |path| - 1);
        return Err(next.error);
      }
      result := next.value;
    }
    return Ok(result);
  }

  lemma {:induction false} LeafFirstErrorStays(path: seq<nat>, n: nat, m: nat)
    requires n <= m <= |path| && LeafFirst(path, n).Err?
    ensures LeafFirst(path, m) == LeafFirst(path, n)
    decreases m
  {
    if m > n {
      LeafFirstErrorStays(path, n, m - 1);
    }
  }

  /** Composed leaf first, the map of any sub-cell of the root's octahedron
      starts with the 4x4 identity times a table with six rows, and panics;
      composed from the root down it is defined. */
  lemma LeafFirstPanicsInsideOctahedron(l: nat)
    requires 5 <= l <= 12 || 14 <= l <= 19
    ensures TransformationAsWritten([l, 13, 0]) == Err(ShapeMismatch(6, Subdivision(l).value.cols))
    ensures Transformation([l, 13, 0]).Ok?
  {
    assert LeafFirst([l, 13, 0], 1) == Err(ShapeMismatch(6, Subdivision(l).value.cols));
    assert LeafFirst([l, 13, 0], 2) == LeafFirst([l, 13, 0], 1);
    assert Descend([l, 13, 0], 1) == Dot(Identity(4), Subdivision(13).value);
  }

  // ---------------------------------------------------------------------------
  // Integrating one cell

  /** A call of the base rule, fixed to one with the shape check of the
      quadrilateral rule: it panics unless it is handed a 4x4 map. */
  function BaseRule(integrator: Hierarchic3DIntegrator, t: Matrix, f: Integrand3D, s: Simplex3D): (r: Result<real>)
    ensures r.Ok? <==> t.rows == 4 && t.cols == 4
    ensures r.Err? ==> r.error == ShapeMismatch(t.rows, t.cols)
  {
    if t.rows == 4 && t.cols == 4 then Ok(integrator.base(t, f, s, Get()).0)
    else Err(ShapeMismatch(t.rows, t.cols))
  }

  /** `integrate_tetrahedron`: the base rule on a 4x4 map; any other shape panics. */
  function IntegrateTetrahedron(integrator: Hierarchic3DIntegrator, t: Matrix, f: Integrand3D, s: Simplex3D): (r: Result<real>)
    ensures r.Ok? <==> t.rows == 4 && t.cols == 4
    ensures r.Err? ==> r.error == ShapeMismatch(t.rows, t.cols)
  {
    if !(t.rows == 4 && t.cols == 4) then Err(ShapeMismatch(t.rows, t.cols))
    else BaseRule(integrator, t, f, s)
  }

  /** The first n pieces of an octahedron with map t, each piece mapped by
      t * O(i), added in order. */
  function OctahedronPieces(integrator: Hierarchic3DIntegrator, t: Matrix, f: Integrand3D, s: Simplex3D, n: nat): (r: Result<real>)
    requires n <= 4
  {
    if n == 0 then Ok(0.0)
    else match OctahedronPieces(integrator, t, f, s, n - 1)
      case Err(e) => Err(e)
      case Ok(acc) =>
        match Dot(t, OctaSub(n - 1))
        case Err(e) => Err(e)
        case Ok(piece) =>
          match BaseRule(integrator, piece, f, s)
          case Err(e) => Err(e)
          case Ok(v) => Ok(acc + v)
  }

  /** `integrate_octahedron` with the product in the order that yields a
      4x4 map per piece: a map of any shape but 4x6 panics. */
  function IntegrateOctahedron(integrator: Hierarchic3DIntegrator, t: Matrix, f: Integrand3D, s: Simplex3D): (r: Result<real>)
  {
    if !(t.rows == 4 && t.cols == 6) then Err(ShapeMismatch(t.rows, t.cols))
    else OctahedronPieces(integrator, t, f, s, 4)
  }

  /** An octahedron is integrated exactly when its map is 4x6, and then as
      four tetrahedra whose corners are corners of the octahedron. */
  lemma OctahedronAsTetrahedra(integrator: Hierarchic3DIntegrator, t: Matrix, f: Integrand3D, s: Simplex3D)
    ensures IntegrateOctahedron(integrator, t, f, s).Ok? <==> t.rows == 4 && t.cols == 6
    ensures t.rows == 4 && t.cols == 6 ==>
      forall i, j :: 0 <= i < 4 && 0 <= j < 4 ==> Column(Mul(t, OctaSub(i)), j) == Column(t, PieceVertex(i, j))
  {
    if t.rows == 4 && t.cols == 6 {
      OctahedronPiecesOk(integrator, t, f, s, 4);
      forall i, j | 0 <= i < 4 && 0 <= j < 4
        ensures Column(Mul(t, OctaSub(i)), j) == Column(t, PieceVertex(i, j))
      {
        OctaSubSelects(i, j);
        MulSelectsColumn(t, OctaSub(i), j, PieceVertex(i, j));
      }
    }
  }

  lemma {:induction false} OctahedronPiecesOk(integrator: Hierarchic3DIntegrator, t: Matrix, f: Integrand3D, s: Simplex3D, n: nat)
    requires n <= 4 && t.rows == 4 && t.cols == 6
    ensures OctahedronPieces(integrator, t, f, s, n).Ok?
  {
    if n > 0 {
      OctahedronPiecesOk(integrator, t, f, s, n - 1);
    }
  }

  /** The loop of `integrate_octahedron`, pieces multiplied as t * O(i). */
  method IntegrateOctahedronCell(integrator: Hierarchic3DIntegrator, t: Matrix, f: Integrand3D, s: Simplex3D)
    returns (r: Result<real>)
    ensures r == IntegrateOctahedron(integrator, t, f, s)
  {
    if !(t.rows == 4 && t.cols == 6) {
      return Err(ShapeMismatch(t.rows, t.cols));
    }
    var result := 0.0;
    for i := 0 to 4
      invariant OctahedronPieces(integrator, t, f, s, i) == Ok(result)
    {
      var trans := Dot(t, OctaSub(i));
      var v := BaseRule(integrator, trans.value, f, s);
      result := result + v.value;
    }
    r := Ok(result);
  }

  /** The pieces as written: O(i) * t, a 6x6 matrix for a 4x6 map t. */
  function OctahedronPiecesAsWritten(integrator: Hierarchic3DIntegrator, t: Matrix, f: Integrand3D, s: Simplex3D, n: nat): (r: Result<real>)
    requires n <= 4
  {
    if n == 0 then Ok(0.0)
    else match OctahedronPiecesAsWritten(integrator, t, f, s, n - 1)
      case Err(e) => Err(e)
      case Ok(acc) =>
        match Dot(OctaSub(n - 1), t)
        case Err(e) => Err(e)
        case Ok(piece) =>
          match BaseRule(integrator, piece, f, s)
          case Err(e) => Err(e)
          case Ok(v) => Ok(acc + v)
  }

  /** `integrate_octahedron` as written. */
  function IntegrateOctahedronAsWritten(integrator: Hierarchic3DIntegrator, t: Matrix, f: Integrand3D, s: Simplex3D): (r: Result<real>)
  {
    if !(t.rows == 4 && t.cols == 6) then Err(ShapeMismatch(t.rows, t.cols))
    else OctahedronPiecesAsWritten(integrator, t, f, s, 4)
  }

  /** As written, `integrate_octahedron` never returns: a map of the wrong
      shape is refused by its own check, and a 4x6 map gives a 6x6 first
      piece that the base rule refuses. */
  lemma OctahedronAsWrittenPanics(integrator: Hierarchic3DIntegrator, t: Matrix, f: Integrand3D, s: Simplex3D)
    ensures IntegrateOctahedronAsWritten(integrator, t, f, s).Err?
    ensures t.rows == 4 && t.cols == 6 ==> IntegrateOctahedronAsWritten(integrator, t, f, s) == Err(ShapeMismatch(6, 6))
  {
    if t.rows == 4 && t.cols == 6 {
      assert OctahedronPiecesAsWritten(integrator, t, f, s, 1) == Err(ShapeMismatch(6, 6));
      OctahedronPiecesAsWrittenErrorStays(integrator, t, f, s, 1, 4);
    }
  }

  lemma {:induction false} OctahedronPiecesAsWrittenErrorStays(integrator: Hierarchic3DIntegrator, t: Matrix, f: Integrand3D, s: Simplex3D, n: nat, m: nat)
    requires n <= m <= 4 && OctahedronPiecesAsWritten(integrator, t, f, s, n).Err?
    ensures OctahedronPiecesAsWritten(integrator, t, f, s, m) == OctahedronPiecesAsWritten(integrator, t, f, s, n)
    decreases m
  {
    if m > n {
      OctahedronPiecesAsWrittenErrorStays(integrator, t, f, s, n, m - 1);
    }
  }

  // ---------------------------------------------------------------------------
  // Estimates

  /** The estimate of the cell at `path`: its map composed with the
      caller's transformation, integrated as a tetrahedron or an octahedron
      according to the cell's own label. */
  function Estimate(integrator: Hierarchic3DIntegrator, transformation: Matrix, f: Integrand3D, s: Simplex3D, path: seq<nat>): (r: Result<real>)
    ensures r.Ok? <==>
      Transformation(path).Ok? && path[0] <= 19 && transformation.rows == 4 && transformation.cols == 4 &&
      Transformation(path).value.cols == (if path[0] < 13 then 4 else 6)
  {
    match Transformation(path)
    case Err(e) => Err(e)
    case Ok(trans) =>
      match Dot(transformation, trans)
      case Err(e) => Err(e)
      case Ok(child) =>
        match IsTetrahedronDomain(path[0])
        case Err(e) => Err(e)
        case Ok(tetrahedron) =>
          if tetrahedron then IntegrateTetrahedron(integrator, child, f, s)
          else
            OctahedronAsTetrahedra(integrator, child, f, s);
            IntegrateOctahedron(integrator, child, f, s)
  }

  /** The estimate of one cell in the leaf branch (and in the sub-cell loops). */
  method EstimateCell(integrator: Hierarchic3DIntegrator, transformation: Matrix, f: Integrand3D, s: Simplex3D, path: seq<nat>)
    returns (r: Result<real>)
    ensures r == Estimate(integrator, transformation, f, s, path)
  {
    var trans := GetTransformation(path);
    if trans.Err? {
      return Err(trans.error);
    }
    var child := Dot(transformation, trans.value);
    if child.Err? {
      return Err(child.error);
    }
    var tetrahedron := IsTetrahedronDomain(path[0]);
    if tetrahedron.Err? {
      return Err(tetrahedron.error);
    }
    if tetrahedron.value {
      r := IntegrateTetrahedron(integrator, child.value, f, s);
    } else {
      r := IntegrateOctahedronCell(integrator, child.value, f, s);
    }
  }

  /** The estimate of the whole domain under the identity is the base rule's `integrate_simplex`. */
  lemma RootEstimate(integrator: Hierarchic3DIntegrator, f: Integrand3D, s: Simplex3D)
    ensures Estimate(integrator, Identity(4), f, s, [0]) == Ok(IntegrateSimplex(integrator.base, f, s, Get()).0)
  {
    MulIdentityLeft(Identity(4));
  }

  /** The estimate with the source's transformation and octahedron product. */
  function EstimateAsWritten(integrator: Hierarchic3DIntegrator, transformation: Matrix, f: Integrand3D, s: Simplex3D, path: seq<nat>): (r: Result<real>)
  {
    match TransformationAsWritten(path)
    case Err(e) => Err(e)
    case Ok(trans) =>
      match Dot(transformation, trans)
      case Err(e) => Err(e)
      case Ok(child) =>
        match IsTetrahedronDomain(path[0])
        case Err(e) => Err(e)
        case Ok(tetrahedron) =>
          if tetrahedron then IntegrateTetrahedron(integrator, child, f, s)
          else IntegrateOctahedronAsWritten(integrator, child, f, s)
  }

  /** The labels of the sub-cells: a tetrahedron has four corner
      tetrahedra and one octahedron, an octahedron eight tetrahedra and six
      octahedra. */
  function ChildLabels(n: nat): (ls: seq<nat>)
    ensures |ls| == if n < 13 then 5 else 14
    ensures forall l :: l in ls <==> if n < 13 then 1 <= l <= 4 || l == 13 else 5 <= l <= 12 || 14 <= l <= 19
  {
    LabelRanges();
    if n < 13 then Range(1, 4) + Range(13, 1) else Range(5, 8) + Range(14, 6)
  }

  lemma LabelRanges()
    ensures forall l :: (l in Range(1, 4) <==> 1 <= l <= 4) && (l in Range(13, 1) <==> l == 13)
    ensures forall l :: (l in Range(5, 8) <==> 5 <= l <= 12) && (l in Range(14, 6) <==> 14 <= l <= 19)
  {
    forall l: nat
      ensures (l in Range(1, 4) <==> 1 <= l <= 4) && (l in Range(13, 1) <==> l == 13)
      ensures (l in Range(5, 8) <==> 5 <= l <= 12) && (l in Range(14, 6) <==> 14 <= l <= 19)
    {
      RangeMembers(1, 4, l);
      RangeMembers(13, 1, l);
      RangeMembers(5, 8, l);
      RangeMembers(14, 6, l);
    }
  }

  function Refiner3D(integrator: Hierarchic3DIntegrator, transformation: Matrix, f: Integrand3D, s: Simplex3D): Refiner
  {
    Refiner((path: seq<nat>) => Estimate(integrator, transformation, f, s, path), ChildLabels,
            integrator.consolidated, integrator.precision)
  }

  function RefinerAsWritten(integrator: Hierarchic3DIntegrator, transformation: Matrix, f: Integrand3D, s: Simplex3D): Refiner
  {
    Refiner((path: seq<nat>) => EstimateAsWritten(integrator, transformation, f, s, path), ChildLabels,
            integrator.consolidated, integrator.precision)
  }

  /** One of the sub-cell loops: the labels first, first + 1, ..., which
      stand at positions from, from + 1, ... of the sub-cell labels, added
      to the running sum. */
  method ChildEstimates(integrator: Hierarchic3DIntegrator, transformation: Matrix, f: Integrand3D, s: Simplex3D,
                        path: seq<nat>, ghost ls: seq<nat>, from: nat, first: nat, count: nat, acc: real)
    returns (r: Result<real>)
    requires from + count <= |ls| && forall k :: from <= k < from + count ==> ls[k] == first + (k - from)
    requires ChildSum(Refiner3D(integrator, transformation, f, s), path, ls, from) == Ok(acc)
    ensures r == ChildSum(Refiner3D(integrator, transformation, f, s), path, ls, from + count)
  {
    ghost var rf := Refiner3D(integrator, transformation, f, s);
    r := Ok(acc);
    for i := 0 to count
      invariant r == ChildSum(rf, path, ls, from + i)
    {
      // after a panic no further sub-cell is estimated
      if r.Ok? {
        r := AddChildEstimate(integrator, transformation, f, s, path, ls, from + i, first + i, r.value);
      }
    }
  }

  /** One step of a sub-cell loop: the estimate of the sub-cell `label`,
      the label at position n, added to the sum of the sub-cells before it. */
  method AddChildEstimate(integrator: Hierarchic3DIntegrator, transformation: Matrix, f: Integrand3D, s: Simplex3D,
                          path: seq<nat>, ghost ls: seq<nat>, n: nat, number: nat, acc: real)
    returns (r: Result<real>)
    requires n < |ls| && ls[n] == number
    requires ChildSum(Refiner3D(integrator, transformation, f, s), path, ls, n) == Ok(acc)
    ensures r == ChildSum(Refiner3D(integrator, transformation, f, s), path, ls, n + 1)
  {
    var childVec := [number] + path;
    var v := EstimateCell(integrator, transformation, f, s, childVec);
    if v.Err? {
      return Err(v.error);
    }
    r := Ok(acc + v.value);
  }

  /** The refinement of a leaf: the corner tetrahedra then the inner
      octahedron of a tetrahedron, or the eight tetrahedra then the six
      octahedra of an octahedron. */
  method RefinedEstimate(integrator: Hierarchic3DIntegrator, transformation: Matrix, f: Integrand3D, s: Simplex3D,
                         path: seq<nat>, tetrahedron: bool) returns (r: Result<real>)
    requires |path| > 0 && tetrahedron == (path[0] < 13)
    ensures r == ChildSum(Refiner3D(integrator, transformation, f, s), path, ChildLabels(path[0]), |ChildLabels(path[0])|)
  {
    ghost var rf := Refiner3D(integrator, transformation, f, s);
    ghost var ls := ChildLabels(path[0]);
    var part: Result<real>;
    if tetrahedron {
      part := ChildEstimates(integrator, transformation, f, s, path, ls, 0, 1, 4, 0.0);
      if part.Err? {
        ChildSumErrorStays(rf, path, ls, 4, 5);
        return part;
      }
      r := ChildEstimates(integrator, transformation, f, s, path, ls, 4, 13, 1, part.value);
    } else {
      part := ChildEstimates(integrator, transformation, f, s, path, ls, 0, 5, 8, 0.0);
      if part.Err? {
        ChildSumErrorStays(rf, path, ls, 8, 14);
        return part;
      }
      r := ChildEstimates(integrator, transformation, f, s, path, ls, 8, 14, 6, part.value);
    }
  }

  /** The decision for one leaf cell: its own estimate, and, unless the cell
      was already compared or the integrator is consolidated, the estimate
      over its sub-cells and the comparison against the precision. */
  method DecideCell(integrator: Hierarchic3DIntegrator, transformation: Matrix, f: Integrand3D, s: Simplex3D,
                    path: seq<nat>, checked: bool) returns (d: Result<Decision>)
    requires |path| > 0
    ensures d == Decide(Refiner3D(integrator, transformation, f, s), path, checked)
  {
    var current := EstimateCell(integrator, transformation, f, s, path);
    if current.Err? {
      return Err(current.error);
    }
    if checked || integrator.consolidated {
      return Ok(Decision(current.value, false));
    }
    var tetrahedron := IsTetrahedronDomain(path[0]).value;
    var childResult := RefinedEstimate(integrator, transformation, f, s, path, tetrahedron);
    if childResult.Err? {
      return Err(childResult.error);
    }
    if Abs(current.value - childResult.value) > integrator.precision {
      d := Ok(Decision(childResult.value, true));
    } else {
      d := Ok(Decision(current.value, false));
    }
  }

  // ---------------------------------------------------------------------------
  // The cache

  /** `Hierarchic3DIntegratorData`: whether the cache has been built, and
      the arena of cells (the root at index 0). */
  class Hierarchic3DIntegratorData {
    var cached: bool
    var nodes: seq<Node>

    ghost predicate Valid()
      reads this
    {
      WellFormed(nodes)
    }

    /** `new_cache`: a single unchecked root cell with label 0, not yet marked as built. */
    constructor NewCache()
      ensures Valid() && !cached && nodes == Fresh()
    {
      cached := false;
      nodes := Fresh();
    }

    /** One of the append loops: new unchecked leaves under cell id with the
        labels first, first + 1, ..., which stand at positions from,
        from + 1, ... of the sub-cell labels ls. */
    method AppendLabels(id: nat, ghost t: seq<Node>, ghost ls: seq<nat>, from: nat, first: nat, count: nat)
      requires id < |t| && from + count <= |ls| && forall k :: from <= k < from + count ==> ls[k] == first + (k - from)
      requires nodes == AddChildren(t, id, ls[..from])
      modifies this
      ensures cached == old(cached) && nodes == AddChildren(t, id, ls[..from + count])
    {
      for i := 0 to count
        invariant cached == old(cached)
        invariant nodes == AddChildren(t, id, ls[..from + i])
      {
        AddChildrenPrefix(t, id, ls, from + i);
        nodes := AppendChild(nodes, id, first + i);
      }
    }

    /** The append loops for cell id: its sub-cells as unchecked leaves, the
        corner tetrahedra then the inner octahedron of a tetrahedron, or the
        eight tetrahedra then the six octahedra of an octahedron. */
    method Subdivide(id: nat, tetrahedron: bool)
      requires id < |nodes| && tetrahedron == (nodes[id].data.number < 13)
      modifies this
      ensures cached == old(cached)
      ensures nodes == AddChildren(old(nodes), id, ChildLabels(old(nodes)[id].data.number))
    {
      ghost var ls := ChildLabels(nodes[id].data.number);
      ghost var t := nodes;
      assert ls[..0] == [];
      if tetrahedron {
        AppendLabels(id, t, ls, 0, 1, 4);
        AppendLabels(id, t, ls, 4, 13, 1);
      } else {
        AppendLabels(id, t, ls, 0, 5, 8);
        AppendLabels(id, t, ls, 8, 14, 6);
      }
      assert ls[..|ls|] == ls;
    }

    /** The body of the depth-first loop for the cell id: the decision for a
        leaf, the update of the cache and the new total. */
    method VisitCell(integrator: Hierarchic3DIntegrator, transformation: Matrix, f: Integrand3D, s: Simplex3D,
                     id: nat, acc: real, changed: bool) returns (res: Result<PassState>)
      requires Valid()
      modifies this
      ensures res == Visit(Refiner3D(integrator, transformation, f, s), PassState(old(nodes), acc, changed), id)
      ensures res.Ok? ==> nodes == res.value.nodes
      ensures res.Err? ==> nodes == old(nodes)
      ensures cached == old(cached)
    {
      ghost var t := nodes;
      if !(id < |nodes| && IsLeaf(nodes, id)) {
        return Ok(PassState(nodes, acc, changed));
      }
      var path := Ancestors(nodes, id);
      var decision := DecideCell(integrator, transformation, f, s, path, nodes[id].data.checked);
      if decision.Err? {
        return Err(decision.error);
      }
      if !nodes[id].data.checked && !integrator.consolidated {
        nodes := SetChecked(nodes, id, true);
      }
      if decision.value.split {
        Subdivide(id, nodes[id].data.number < 13);
      }
      assert nodes == Grow(Refiner3D(integrator, transformation, f, s), t, id, decision.value);
      res := Ok(PassState(nodes, acc + decision.value.value, changed || decision.value.split));
    }

    /** One pass of the outer loop: the depth-first walk over the cache as it
        stood when the pass began. */
    method RunPass(integrator: Hierarchic3DIntegrator, transformation: Matrix, f: Integrand3D, s: Simplex3D)
      returns (r: Result<real>, changed: bool)
      requires Valid()
      modifies this
      ensures cached == old(cached) && Valid()
      ensures var p := Pass(Refiner3D(integrator, transformation, f, s), old(nodes));
        (p.Err? ==> r == Err(p.error)) &&
        (p.Ok? ==> r == Ok(p.value.acc) && changed == p.value.changed && nodes == p.value.nodes)
    {
      ghost var rf := Refiner3D(integrator, transformation, f, s);
      ghost var t := nodes;
      PostOrderWalk(t);
      var order := PostOrder(nodes, 0);
      var state: Result<PassState> := Ok(PassState(nodes, 0.0, false));
      for k := 0 to |order|
        invariant state == RunPrefix(rf, order, k, PassState(t, 0.0, false))
        invariant state.Ok? ==> nodes == state.value.nodes
        invariant cached == old(cached) && Valid()
      {
        // after a panic no further cell is visited
        if state.Ok? {
          RunPrefixNext(rf, t, order, k, state.value);
          state := VisitCell(integrator, transformation, f, s, order[k], state.value.acc, state.value.changed);
        }
      }
      if state.Err? {
        return Err(state.error), false;
      }
      r, changed := Ok(state.value.acc), state.value.changed;
    }
  }

  /** `integrate_over_domain` with at most `fuel` passes: the cache is built
      on first use, then passes are repeated until one splits nothing. */
  method IntegrateOverDomain(integrator: Hierarchic3DIntegrator, transformation: Matrix, f: Integrand3D, s: Simplex3D,
                             data: Hierarchic3DIntegratorData, fuel: nat) returns (r: Result<real>, finished: bool)
    requires data.Valid()
    modifies data
    ensures data.cached && data.Valid()
    ensures var start := if old(data.cached) then old(data.nodes) else Fresh();
      match Converge(Refiner3D(integrator, transformation, f, s), start, fuel)
      case Err(e) => r == Err(e)
      case Ok(Done(v, u)) => r == Ok(v) && finished && data.nodes == u
      case Ok(Unfinished(u)) => !finished && data.nodes == u
  {
    ghost var rf := Refiner3D(integrator, transformation, f, s);
    if !data.cached {
      data.nodes := Fresh();
      data.cached := true;
    }
    ghost var start := data.nodes;
    var changed := true;
    r := Ok(0.0);
    var left := fuel;
    // a pass that panics ends the loop with its panic
    while r.Ok? && changed && left > 0
      invariant data.cached && data.Valid()
      invariant Converge(rf, start, fuel) ==
        if r.Err? then Err(r.error) else if changed then Converge(rf, data.nodes, left) else Ok(Done(r.value, data.nodes))
      decreases left
    {
      left := left - 1;
      r, changed := data.RunPass(integrator, transformation, f, s);
    }
    finished := r.Ok? && !changed;
  }

  // ---------------------------------------------------------------------------
  // With the corrections, the 3D integrator never panics

  /** The root has label 0 and every other cell carries a label of a
      sub-cell of its parent. */
  ghost predicate LabelsConsistent(t: seq<Node>)
  {
    |t| > 0 && t[0].data.number == 0 &&
    forall i :: 0 < i < |t| && t[i].parent.Some? && t[i].parent.value < |t| ==>
      t[i].data.number in ChildLabels(t[t[i].parent.value].data.number)
  }

  /** The shape of a cell's map: four rows, and four columns for a
      tetrahedron, six for an octahedron. */
  ghost predicate CellMap(path: seq<nat>)
    requires |path| > 0
  {
    path[0] <= 19 && Transformation(path).Ok? &&
    Transformation(path).value.cols == (if path[0] < 13 then 4 else 6)
  }

  /** A sub-cell of a cell with a well-shaped map has a well-shaped map. */
  lemma ChildMap(l: nat, path: seq<nat>)
    requires |path| > 0 && CellMap(path) && l in ChildLabels(path[0])
    ensures CellMap([l] + path)
  {
    ChildTransformation(l, path);
  }

  lemma {:induction false} PathMap(t: seq<Node>, i: nat)
    requires WellFormed(t) && LabelsConsistent(t) && i < |t|
    ensures CellMap(Path(t, i))
    decreases i
  {
    PathEndsAtRoot(t, i);
    if i > 0 {
      assert ParentOk(t, i);
      var p := t[i].parent.value;
      PathMap(t, p);
      assert Path(t, i) == [t[i].data.number] + Path(t, p);
      ChildMap(t[i].data.number, Path(t, p));
    } else {
      assert Path(t, 0) == [0];
    }
  }

  lemma LeafNeverFails(integrator: Hierarchic3DIntegrator, transformation: Matrix, f: Integrand3D, s: Simplex3D, t: seq<Node>, i: nat)
    requires WellFormed(t) && LabelsConsistent(t) && i < |t|
    requires transformation.rows == 4 && transformation.cols == 4
    ensures LeafOutcome(Refiner3D(integrator, transformation, f, s), t, i).Ok?
  {
    var rf := Refiner3D(integrator, transformation, f, s);
    var p := Path(t, i);
    PathMap(t, i);
    var ls := ChildLabels(p[0]);
    forall k | 0 <= k < |ls|
      ensures rf.coarse([ls[k]] + p).Ok?
    {
      ChildMap(ls[k], p);
    }
  }

  /** With a 4x4 transformation, every leaf of a cache with consistent
      labels is decided without a panic, and the pass keeps the labels
      consistent. */
  lemma PassNeverFails(integrator: Hierarchic3DIntegrator, transformation: Matrix, f: Integrand3D, s: Simplex3D, t: seq<Node>)
    requires WellFormed(t) && LabelsConsistent(t) && transformation.rows == 4 && transformation.cols == 4
    ensures Pass(Refiner3D(integrator, transformation, f, s), t).Ok?
    ensures LabelsConsistent(Pass(Refiner3D(integrator, transformation, f, s), t).value.nodes)
  {
    var rf := Refiner3D(integrator, transformation, f, s);
    forall i | 0 <= i < |t| && IsLeaf(t, i)
      ensures LeafOutcome(rf, t, i).Ok?
    {
      LeafNeverFails(integrator, transformation, f, s, t, i);
    }
    PassEffect(rf, t);
    var u := Pass(rf, t).value.nodes;
    forall j | 0 < j < |u| && u[j].parent.Some? && u[j].parent.value < |u|
      ensures u[j].data.number in ChildLabels(u[u[j].parent.value].data.number)
    {
      if j >= |t| {
        assert u[j].data.number in ChildLabels(t[u[j].parent.value].data.number);
      } else {
        assert ParentOk(t, j);
      }
    }
  }

  /** Hence the corrected integrator never panics: started from a fresh
      cache or any cache it built itself, with a 4x4 transformation, every
      run of the outer loop succeeds. */
  lemma {:induction false} ConvergeNeverFails(integrator: Hierarchic3DIntegrator, transformation: Matrix, f: Integrand3D, s: Simplex3D, t: seq<Node>, fuel: nat)
    requires WellFormed(t) && LabelsConsistent(t) && transformation.rows == 4 && transformation.cols == 4
    ensures Converge(Refiner3D(integrator, transformation, f, s), t, fuel).Ok?
    decreases fuel
  {
    if fuel > 0 {
      PassNeverFails(integrator, transformation, f, s, t);
      var st := Pass(Refiner3D(integrator, transformation, f, s), t).value;
      if st.changed {
        ConvergeNeverFails(integrator, transformation, f, s, st.nodes, fuel - 1);
      }
    }
  }

  /** As written, the first pass of an integrator that is not consolidated
      panics at the root: its fifth sub-cell is the inner octahedron, whose
      first piece is 6x6. */
  lemma FirstPassAsWrittenPanics(integrator: Hierarchic3DIntegrator, transformation: Matrix, f: Integrand3D, s: Simplex3D)
    requires !integrator.consolidated && transformation.rows == 4 && transformation.cols == 4
    ensures Pass(RefinerAsWritten(integrator, transformation, f, s), Fresh()) == Err(ShapeMismatch(6, 6))
  {
    var rf := RefinerAsWritten(integrator, transformation, f, s);
    var t := Fresh();
    var ls := ChildLabels(0);
    assert PostOrder(t, 0) == [0];
    MulIdentityLeft(Identity(4));
    MulIdentityRight(transformation);
    forall k | 0 <= k < 4
      ensures rf.coarse([ls[k]] + [0]).Ok?
    {
      assert ls[k] == k + 1 && [ls[k]] + [0] == [k + 1, 0];
      assert LeafFirst([k + 1, 0], 1) == Dot(Identity(4), AsWrittenCorner(k + 1));
      MulIdentityLeft(AsWrittenCorner(k + 1));
    }
    assert ChildSum(rf, [0], ls, 4).Ok?;
    assert ls[4] == 13 && [ls[4]] + [0] == [13, 0];
    var oct := Mul(transformation, OctahedralTable(13));
    assert LeafFirst([13, 0], 1) == Ok(Mul(Identity(4), OctahedralTable(13)));
    MulIdentityLeft(OctahedralTable(13));
    OctahedronAsWrittenPanics(integrator, oct, f, s);
    assert rf.coarse([13, 0]) == Err(ShapeMismatch(6, 6));
    assert ChildSum(rf, [0], ls, 5) == Err(ShapeMismatch(6, 6));
    assert Path(t, 0) == [0];
    assert Decide(rf, [0], false) == Err(ShapeMismatch(6, 6));
    PostOrderWalk(t);
    assert RunPrefix(rf, [0], 0, PassState(t, 0.0, false)) == Ok(PassState(t, 0.0, false));
    assert Visit(rf, PassState(t, 0.0, false), 0) == Err(ShapeMismatch(6, 6));
  }
}
