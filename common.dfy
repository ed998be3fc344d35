/** The fixed-size determinants shared by the 3D code: a 3x3 determinant by
    the rule of Sarrus and a 4x4 determinant by cofactor expansion along
    the first column. The methods work on arrays the way the source does
    (loop accumulators, a 3x3 minor buffer filled in place); the functions
    beside them say what they compute. */
module Common {
  import opened Wrappers
  import opened Matrices

  /** The stateless marker value the integrators hand to the domain. */
  datatype IntegratorDummy = IntegratorDummy

  function Get(): IntegratorDummy
  {
    IntegratorDummy
  }

  /** The entries of a 2D array as a shaped matrix value. */
  ghost function Entries(a: array2<real>): (m: Matrix)
    reads a
    ensures m.rows == a.Length0 && m.cols == a.Length1
    ensures forall i, j :: 0 <= i < a.Length0 && 0 <= j < a.Length1 ==> m.e[i][j] == a[i, j]
  {
    Mat(a.Length0, a.Length1, seq(a.Length0, i requires 0 <= i < a.Length0 reads a =>
                                  seq(a.Length1, j requires 0 <= j < a.Length1 reads a => a[i, j])))
  }

  // ---------------------------------------------------------------------------
  // 3x3 determinant

  /** The six-term expansion of the determinant of the leading 3x3 block. */
  function Det3(m: Matrix): real
    requires m.rows >= 3 && m.cols >= 3
  {
    var e := m.e;
    e[0][0] * e[1][1] * e[2][2] + e[0][1] * e[1][2] * e[2][0] + e[0][2] * e[1][0] * e[2][1]
    - e[0][2] * e[1][1] * e[2][0] - e[0][0] * e[1][2] * e[2][1] - e[0][1] * e[1][0] * e[2][2]
  }

  /** The first n factors of the j-th rising diagonal product m[i][(i + j) % 3]. */
  function RisingProduct(m: Matrix, j: nat, n: nat): real
    requires m.rows >= 3 && m.cols >= 3 && n <= 3
  {
    if n == 0 then 1.0 else RisingProduct(m, j, n - 1) * m.e[n - 1][(n - 1 + j) % 3]
  }

  /** -1 times the first n factors of the j-th falling diagonal product m[2 - i][(i + j) % 3]. */
  function FallingProduct(m: Matrix, j: nat, n: nat): real
    requires m.rows >= 3 && m.cols >= 3 && n <= 3
  {
    if n == 0 then -1.0 else FallingProduct(m, j, n - 1) * m.e[2 - (n - 1)][(n - 1 + j) % 3]
  }

  /** The sum of the first n pairs of diagonal products. */
  function SarrusSum(m: Matrix, n: nat): real
    requires m.rows >= 3 && m.cols >= 3 && n <= 3
  {
    if n == 0 then 0.0 else SarrusSum(m, n - 1) + RisingProduct(m, n - 1, 3) + FallingProduct(m, n - 1, 3)
  }

  /** The j-th pair of diagonal products, written out. */
  lemma DiagonalPair(m: Matrix, j: nat)
    requires m.rows >= 3 && m.cols >= 3
    ensures RisingProduct(m, j, 3) == m.e[0][j % 3] * m.e[1][(1 + j) % 3] * m.e[2][(2 + j) % 3]
    ensures FallingProduct(m, j, 3) == -1.0 * m.e[2][j % 3] * m.e[1][(1 + j) % 3] * m.e[0][(2 + j) % 3]
  {
    assert RisingProduct(m, j, 1) == m.e[0][j % 3];
    assert FallingProduct(m, j, 1) == -1.0 * m.e[2][j % 3];
  }

  /** The three pairs of diagonal products add up to the six-term expansion. */
  lemma SarrusComplete(m: Matrix)
    requires m.rows >= 3 && m.cols >= 3
    ensures SarrusSum(m, 3) == Det3(m)
  {
    DiagonalPair(m, 0);
    DiagonalPair(m, 1);
    DiagonalPair(m, 2);
    assert SarrusSum(m, 1) == RisingProduct(m, 0, 3) + FallingProduct(m, 0, 3);
    assert SarrusSum(m, 2) == SarrusSum(m, 1) + RisingProduct(m, 1, 3) + FallingProduct(m, 1, 3);
  }

  /** `det3x3`: the determinant of the leading 3x3 block of a, accumulated
      diagonal by diagonal. The loops read every entry of that block, so an
      array with fewer than 3 rows or columns makes the indexing panic. */
  method Det3x3(a: array2<real>) returns (r: Result<real>)
    ensures a.Length0 >= 3 && a.Length1 >= 3 ==> r == Ok(Det3(Entries(a)))
    ensures a.Length0 < 3 || a.Length1 < 3 ==> r == Err(IndexOutOfBounds)
  {
    if a.Length0 < 3 || a.Length1 < 3 {
      return Err(IndexOutOfBounds);
    }
    ghost var m := Entries(a);
    var sum := 0.0;
    for j := 0 to 3
      invariant sum == SarrusSum(m, j)
    {
      var rising := RisingDiagonal(a, j);
      var falling := FallingDiagonal(a, j);
      sum := sum + rising + falling;
    }
    SarrusComplete(m);
    r := Ok(sum);
  }

  /** The first inner loop of `det3x3`: the j-th rising diagonal product. */
  method RisingDiagonal(a: array2<real>, j: nat) returns (prod: real)
    requires a.Length0 >= 3 && a.Length1 >= 3
    ensures prod == RisingProduct(Entries(a), j, 3)
  {
    ghost var m := Entries(a);
    prod := 1.0;
    for i := 0 to 3
      invariant prod == RisingProduct(m, j, i)
    {
      prod := prod * a[i, (i + j) % 3];
    }
  }

  /** The second inner loop of `det3x3`: -1 times the j-th falling diagonal product. */
  method FallingDiagonal(a: array2<real>, j: nat) returns (prod: real)
    requires a.Length0 >= 3 && a.Length1 >= 3
    ensures prod == FallingProduct(Entries(a), j, 3)
  {
    ghost var m := Entries(a);
    prod := -1.0;
    for i := 0 to 3
      invariant prod == FallingProduct(m, j, i)
    {
      prod := prod * a[2 - i, (i + j) % 3];
    }
  }

  // ---------------------------------------------------------------------------
  // 4x4 determinant

  /** The 3x3 minor of m without row i and column 0: rows above i are kept,
      rows from i on are taken from one row further down. */
  function Minor(m: Matrix, i: nat): (r: Matrix)
    requires m.rows >= 4 && m.cols >= 4 && i < 4
    ensures r.rows == 3 && r.cols == 3
    ensures forall j, k :: 0 <= j < 3 && 0 <= k < 3 ==> r.e[j][k] == m.e[if j >= i then j + 1 else j][k + 1]
  {
    Mat(3, 3, seq(3, j requires 0 <= j < 3 =>
                    seq(3, k requires 0 <= k < 3 => m.e[if j >= i then j + 1 else j][k + 1])))
  }

  /** (-1)^i. */
  function Sign(i: nat): real
  {
    if i % 2 == 0 then 1.0 else -1.0
  }

  /** The first n terms of the cofactor expansion along column 0. */
  function CofactorSum(m: Matrix, n: nat): real
    requires m.rows >= 4 && m.cols >= 4 && n <= 4
  {
    if n == 0 then 0.0 else CofactorSum(m, n - 1) + Cofactor(m, n - 1)
  }

  /** The product of a sign, an entry and a minor's determinant. */
  function SignedProduct(sign: real, val: real, det: real): real
  {
    sign * val * det
  }

  /** (-1)^i m[i][0] times the determinant of the minor for row i. */
  function Cofactor(m: Matrix, i: nat): real
    requires m.rows >= 4 && m.cols >= 4 && i < 4
  {
    SignedProduct(Sign(i), m.e[i][0], Det3(Minor(m, i)))
  }

  /** The determinant of the leading 4x4 block. */
  function Det4(m: Matrix): real
    requires m.rows >= 4 && m.cols >= 4
  {
    CofactorSum(m, 4)
  }

  /** The expansion written out as its four cofactors. */
  lemma Det4Terms(m: Matrix)
    requires m.rows >= 4 && m.cols >= 4
    ensures Det4(m) == Cofactor(m, 0) + Cofactor(m, 1) + Cofactor(m, 2) + Cofactor(m, 3)
  {
    assert CofactorSum(m, 1) == Cofactor(m, 0);
    assert CofactorSum(m, 2) == CofactorSum(m, 1) + Cofactor(m, 1);
    assert CofactorSum(m, 3) == CofactorSum(m, 2) + Cofactor(m, 2);
  }

  /** A 3x3 block with a zero row has determinant 0. */
  lemma Det3ZeroRow(m: Matrix, r: nat)
    requires m.rows >= 3 && m.cols >= 3 && r < 3
    requires forall c :: 0 <= c < 3 ==> m.e[r][c] == 0.0
    ensures Det3(m) == 0.0
  {
    var e := m.e;
    assert e[r][0] == 0.0 && e[r][1] == 0.0 && e[r][2] == 0.0;
  }

  /** A row of m other than i that is zero from column 1 on becomes a zero
      row of the minor for row i. */
  lemma MinorZeroRow(m: Matrix, i: nat, r: nat)
    requires m.rows >= 4 && m.cols >= 4 && i < 4 && r < 4 && r != i
    requires m.e[r][1] == 0.0 && m.e[r][2] == 0.0 && m.e[r][3] == 0.0
    ensures Det3(Minor(m, i)) == 0.0
  {
    Det3ZeroRow(Minor(m, i), if r > i then r - 1 else r);
  }

  /** The inner loops of `det4x4`: a fresh 3x3 buffer filled row by row with the minor for row i. */
  method FillMinor(a: array2<real>, i: nat) returns (minor: array2<real>)
    requires a.Length0 >= 4 && a.Length1 >= 4 && i < 4
    ensures fresh(minor)
    ensures Entries(minor) == Minor(Entries(a), i)
  {
    minor := new real[3, 3]((_, _) => 0.0);
    for j := 0 to 3
      invariant forall r, c :: 0 <= r < j && 0 <= c < 3 ==> minor[r, c] == a[if r >= i then r + 1 else r, c + 1]
    {
      if j >= i {
        for k := 0 to 3
          invariant forall r, c :: 0 <= r < j && 0 <= c < 3 ==> minor[r, c] == a[if r >= i then r + 1 else r, c + 1]
          invariant forall c :: 0 <= c < k ==> minor[j, c] == a[j + 1, c + 1]
        {
          minor[j, k] := a[j + 1, k + 1];
        }
      } else {
        for k := 0 to 3
          invariant forall r, c :: 0 <= r < j && 0 <= c < 3 ==> minor[r, c] == a[if r >= i then r + 1 else r, c + 1]
          invariant forall c :: 0 <= c < k ==> minor[j, c] == a[j, c + 1]
        {
          minor[j, k] := a[j, k + 1];
        }
      }
    }
    MatEq(Entries(minor), Minor(Entries(a), i));
  }

  /** Two shaped matrices with the same shape and entries are equal. */
  lemma MatEq(x: Matrix, y: Matrix)
    requires x.rows == y.rows && x.cols == y.cols
    requires forall i, j :: 0 <= i < x.rows && 0 <= j < x.cols ==> x.e[i][j] == y.e[i][j]
    ensures x == y
  {
    assert forall i :: 0 <= i < x.rows ==> x.e[i] == y.e[i];
  }

  /** The body of the loop of `det4x4`: (-1)^i times entry (i, 0) times the
      determinant of the minor for row i, built in a fresh buffer. */
  method SignedCofactor(a: array2<real>, i: nat) returns (t: real)
    requires a.Length0 >= 4 && a.Length1 >= 4 && i < 4
    ensures t == Cofactor(Entries(a), i)
  {
    var val := a[i, 0];
    var minor := FillMinor(a, i);
    var d := Det3x3(minor);
    t := SignedProduct(Sign(i), val, d.value);
  }

  /** `det4x4`: the sum of the signed cofactors along column 0. The loops
      read every entry of the leading 4x4 block, so a smaller array makes
      the indexing panic. */
  method Det4x4(a: array2<real>) returns (r: Result<real>)
    ensures a.Length0 >= 4 && a.Length1 >= 4 ==> r == Ok(Det4(Entries(a)))
    ensures a.Length0 < 4 || a.Length1 < 4 ==> r == Err(IndexOutOfBounds)
  {
    if a.Length0 < 4 || a.Length1 < 4 {
      return Err(IndexOutOfBounds);
    }
    ghost var m := Entries(a);
    var sum := 0.0;
    for i := 0 to 4
      invariant sum == CofactorSum(m, i)
    {
      var t := SignedCofactor(a, i);
      sum := sum + t;
    }
    r := Ok(sum);
  }

  // ---------------------------------------------------------------------------
  // Consequences of the formulas

  lemma Det3Identity()
    ensures Det3(Identity(3)) == 1.0
  {
  }

  lemma Det4Identity()
    ensures Det4(Identity(4)) == 1.0
  {
    var id := Identity(4);
    assert Det3(Minor(id, 0)) == 1.0;
  }

  /** A zero first column makes every cofactor term vanish. */
  lemma Det4ZeroColumn(m: Matrix)
    requires m.rows >= 4 && m.cols >= 4
    requires forall i :: 0 <= i < 4 ==> m.e[i][0] == 0.0
    ensures Det4(m) == 0.0
  {
    CofactorSumZero(m, 4);
  }

  lemma {:induction false} CofactorSumZero(m: Matrix, n: nat)
    requires m.rows >= 4 && m.cols >= 4 && n <= 4
    requires forall i :: 0 <= i < 4 ==> m.e[i][0] == 0.0
    ensures CofactorSum(m, n) == 0.0
  {
    if n > 0 {
      CofactorSumZero(m, n - 1);
    }
  }
}
