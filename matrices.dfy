/** Small dense real matrices with an explicit shape, standing in for
    ndarray's `Array2<f64>`: the product fails on a shape mismatch instead of
    panicking, and the column-sum facts that the subdivision tables rely on
    are proved once here. */
module Matrices {
  import opened Wrappers

  datatype Mat = Mat(rows: nat, cols: nat, e: seq<seq<real>>) {
    predicate Shaped() {
      |e| == rows && forall i :: 0 <= i < rows ==> |e[i]| == cols
    }
  }

  /** A matrix whose entry table has the shape it claims. */
  type Matrix = m: Mat | m.Shaped() witness Mat(0, 0, [])

  function Identity(n: nat): (m: Matrix)
    ensures m.rows == n && m.cols == n
    ensures forall i, j :: 0 <= i < n && 0 <= j < n ==> m.e[i][j] == if i == j then 1.0 else 0.0
  {
    Mat(n, n, seq(n, i => seq(n, j => if i == j then 1.0 else 0.0)))
  }

  /** f(0) + f(1) + ... + f(n - 1). */
  function SumF(n: nat, f: nat -> real): real
  {
    if n == 0 then 0.0 else SumF(n - 1, f) + f(n - 1)
  }

  /** The terms a[i][k] * b[k][j], k = 0, 1, ..., of entry (i, j) of a * b. */
  function RowTimesCol(a: Matrix, b: Matrix, i: nat, j: nat): nat -> real
  {
    (k: nat) => if i < a.rows && k < a.cols && k < b.rows && j < b.cols then a.e[i][k] * b.e[k][j] else 0.0
  }

  /** Entry (i, j) of the product a * b. */
  function ProductEntry(a: Matrix, b: Matrix, i: nat, j: nat): real
    requires a.cols == b.rows && i < a.rows && j < b.cols
  {
    SumF(a.cols, RowTimesCol(a, b, i, j))
  }

  /** The matrix product, defined only where the shapes agree. */
  function Mul(a: Matrix, b: Matrix): (c: Matrix)
    requires a.cols == b.rows
    ensures c.rows == a.rows && c.cols == b.cols
    ensures forall i, j :: 0 <= i < a.rows && 0 <= j < b.cols ==> c.e[i][j] == ProductEntry(a, b, i, j)
  {
    Mat(a.rows, b.cols, seq(a.rows, i requires 0 <= i < a.rows =>
                          seq(b.cols, j requires 0 <= j < b.cols => ProductEntry(a, b, i, j))))
  }

  /** ndarray's `a.dot(b)`: the product, or a panic when the inner dimensions differ. */
  function Dot(a: Matrix, b: Matrix): (r: Result<Matrix>)
    ensures r.Ok? <==> a.cols == b.rows
    ensures r.Ok? ==> r.value.rows == a.rows && r.value.cols == b.cols && r.value == Mul(a, b)
  {
    if a.cols == b.rows then Ok(Mul(a, b)) else Err(ShapeMismatch(b.rows, b.cols))
  }

  /** Column j of m as a sequence. */
  function Column(m: Matrix, j: nat): (v: seq<real>)
    requires j < m.cols
    ensures |v| == m.rows && forall i :: 0 <= i < m.rows ==> v[i] == m.e[i][j]
  {
    seq(m.rows, i requires 0 <= i < m.rows => m.e[i][j])
  }

  /** The terms m[i][k] * v[k], k = 0, 1, ..., of entry i of m * v. */
  function RowTimesVec(m: Matrix, v: seq<real>, i: nat): nat -> real
  {
    (k: nat) => if i < m.rows && k < m.cols && k < |v| then m.e[i][k] * v[k] else 0.0
  }

  /** m * v for a column vector v. */
  function MulVec(m: Matrix, v: seq<real>): (w: seq<real>)
    requires |v| == m.cols
    ensures |w| == m.rows
    ensures forall i :: 0 <= i < m.rows ==> w[i] == SumF(m.cols, RowTimesVec(m, v, i))
  {
    seq(m.rows, i requires 0 <= i < m.rows => SumF(m.cols, RowTimesVec(m, v, i)))
  }

  /** The entries of column j of m, padded with zeros. */
  function ColFn(m: Matrix, j: nat): nat -> real
  {
    (i: nat) => if i < m.rows && j < m.cols then m.e[i][j] else 0.0
  }

  function ColSum(m: Matrix, j: nat): real
    requires j < m.cols
  {
    SumF(m.rows, ColFn(m, j))
  }

  /** Every column sums to 1: the matrix maps barycentric coordinates to barycentric coordinates. */
  ghost predicate UnitColumns(m: Matrix)
  {
    forall j :: 0 <= j < m.cols ==> ColSum(m, j) == 1.0
  }

  /** Every entry is 0, 1/2 or 1: vertices and edge midpoints only. */
  ghost predicate HalfEntries(m: Matrix)
  {
    forall i, j :: 0 <= i < m.rows && 0 <= j < m.cols ==> m.e[i][j] == 0.0 || m.e[i][j] == 0.5 || m.e[i][j] == 1.0
  }

  /** Every column is a unit vector e_k: the matrix only selects vertices. */
  ghost predicate SelectsVertices(m: Matrix)
  {
    forall j :: 0 <= j < m.cols ==> exists k :: 0 <= k < m.rows && Column(m, j) == UnitVector(m.rows, k)
  }

  function UnitVector(n: nat, k: nat): (v: seq<real>)
    ensures |v| == n
    ensures forall i :: 0 <= i < n ==> v[i] == if i == k then 1.0 else 0.0
  {
    seq(n, i => if i == k then 1.0 else 0.0)
  }

  // ---------------------------------------------------------------------------
  // Sums

  lemma {:induction false} SumFExt(n: nat, f: nat -> real, g: nat -> real)
    requires forall k :: 0 <= k < n ==> f(k) == g(k)
    ensures SumF(n, f) == SumF(n, g)
  {
    if n > 0 {
      SumFExt(n - 1, f, g);
    }
  }

  lemma {:induction false} SumFAdd(n: nat, f: nat -> real, g: nat -> real, h: nat -> real)
    requires forall k :: 0 <= k < n ==> h(k) == f(k) + g(k)
    ensures SumF(n, h) == SumF(n, f) + SumF(n, g)
  {
    if n > 0 {
      SumFAdd(n - 1, f, g, h);
    }
  }

  lemma {:induction false} SumFScale(n: nat, c: real, f: nat -> real, g: nat -> real)
    requires forall k :: 0 <= k < n ==> g(k) == c * f(k)
    ensures SumF(n, g) == c * SumF(n, f)
  {
    if n > 0 {
      SumFScale(n - 1, c, f, g);
    }
  }

  /** A sum whose only non-zero term is term k equals that term. */
  lemma {:induction false} SumFSingle(n: nat, k: nat, f: nat -> real)
    requires k < n
    requires forall i :: 0 <= i < n && i != k ==> f(i) == 0.0
    ensures SumF(n, f) == f(k)
  {
    if n - 1 == k {
      SumFZero(n - 1, f);
    } else {
      SumFSingle(n - 1, k, f);
    }
  }

  lemma {:induction false} SumFZero(n: nat, f: nat -> real)
    requires forall i :: 0 <= i < n ==> f(i) == 0.0
    ensures SumF(n, f) == 0.0
  {
    if n > 0 {
      SumFZero(n - 1, f);
    }
  }

  /** Row i of a two-argument term, as a one-argument function. */
  function Curry(f: (nat, nat) -> real, i: nat): nat -> real
  {
    (k: nat) => f(i, k)
  }

  /** Column k of a two-argument term, as a one-argument function. */
  function Flip(f: (nat, nat) -> real, k: nat): nat -> real
  {
    (i: nat) => f(i, k)
  }

  function RowSums(n: nat, f: (nat, nat) -> real): nat -> real
  {
    (i: nat) => SumF(n, Curry(f, i))
  }

  function ColSums(m: nat, f: (nat, nat) -> real): nat -> real
  {
    (k: nat) => SumF(m, Flip(f, k))
  }

  /** Exchanging the order of a double sum over an m-by-n rectangle. */
  lemma {:induction false} SumFSwap(m: nat, n: nat, f: (nat, nat) -> real)
    ensures SumF(m, RowSums(n, f)) == SumF(n, ColSums(m, f))
  {
    if m == 0 {
      SumFZero(n, ColSums(0, f));
    } else {
      SumFSwap(m - 1, n, f);
      SumFAdd(n, ColSums(m - 1, f), Curry(f, m - 1), ColSums(m, f));
    }
  }

  // ---------------------------------------------------------------------------
  // Column sums

  /** The identity has unit columns. */
  lemma IdentityUnitColumns(n: nat)
    ensures UnitColumns(Identity(n))
  {
    var id := Identity(n);
    forall j | 0 <= j < n
      ensures ColSum(id, j) == 1.0
    {
      SumFSingle(n, j, ColFn(id, j));
    }
  }

  /** The terms a[i][k] * b[k][j] of column j of a * b, indexed by (i, k). */
  function ProductTerms(a: Matrix, b: Matrix, j: nat): (nat, nat) -> real
  {
    (i: nat, k: nat) => RowTimesCol(a, b, i, j)(k)
  }

  /** The terms b[k][j] * (column sum k of a), k = 0, 1, .... */
  function WeightedColSums(a: Matrix, b: Matrix, j: nat): nat -> real
  {
    (k: nat) => if k < a.cols && k < b.rows && j < b.cols then b.e[k][j] * ColSum(a, k) else 0.0
  }

  /** Column j of a * b sums to the b-weighted sum of the column sums of a. */
  lemma ColSumOfProduct(a: Matrix, b: Matrix, j: nat)
    requires a.cols == b.rows && j < b.cols
    ensures ColSum(Mul(a, b), j) == SumF(a.cols, WeightedColSums(a, b, j))
  {
    var c := Mul(a, b);
    var f := ProductTerms(a, b, j);
    forall i | 0 <= i < a.rows
      ensures ColFn(c, j)(i) == RowSums(a.cols, f)(i)
    {
      SumFExt(a.cols, RowTimesCol(a, b, i, j), Curry(f, i));
    }
    SumFExt(a.rows, ColFn(c, j), RowSums(a.cols, f));
    SumFSwap(a.rows, a.cols, f);
    forall k | 0 <= k < a.cols
      ensures ColSums(a.rows, f)(k) == WeightedColSums(a, b, j)(k)
    {
      forall i | 0 <= i < a.rows
        ensures Flip(f, k)(i) == b.e[k][j] * ColFn(a, k)(i)
      {
        assert Flip(f, k)(i) == RowTimesCol(a, b, i, j)(k) == a.e[i][k] * b.e[k][j];
      }
      SumFScale(a.rows, b.e[k][j], ColFn(a, k), Flip(f, k));
    }
    SumFExt(a.cols, ColSums(a.rows, f), WeightedColSums(a, b, j));
  }

  /** Products of barycentric maps are barycentric maps: unit column sums survive composition. */
  lemma MulUnitColumns(a: Matrix, b: Matrix)
    requires a.cols == b.rows && UnitColumns(a) && UnitColumns(b)
    ensures UnitColumns(Mul(a, b))
  {
    forall j | 0 <= j < b.cols
      ensures ColSum(Mul(a, b), j) == 1.0
    {
      ColSumOfProduct(a, b, j);
      forall k | 0 <= k < a.cols
        ensures WeightedColSums(a, b, j)(k) == ColFn(b, j)(k)
      {
        assert ColSum(a, k) == 1.0;
      }
      SumFExt(a.cols, WeightedColSums(a, b, j), ColFn(b, j));
      assert ColSum(b, j) == 1.0;
    }
  }

  /** m * e_k is column k of m. */
  lemma MulUnitVector(m: Matrix, k: nat)
    requires k < m.cols
    ensures MulVec(m, UnitVector(m.cols, k)) == Column(m, k)
  {
    var u := UnitVector(m.cols, k);
    forall i | 0 <= i < m.rows
      ensures MulVec(m, u)[i] == m.e[i][k]
    {
      SumFSingle(m.cols, k, RowTimesVec(m, u, i));
    }
  }
  /** When column j of b is the unit vector e_k, column j of a * b is column k of a. */
  lemma MulSelectsColumn(a: Matrix, b: Matrix, j: nat, k: nat)
    requires a.cols == b.rows && j < b.cols && k < b.rows
    requires Column(b, j) == UnitVector(b.rows, k)
    ensures Column(Mul(a, b), j) == Column(a, k)
  {
    forall i | 0 <= i < a.rows
      ensures Mul(a, b).e[i][j] == a.e[i][k]
    {
      forall m | 0 <= m < a.cols && m != k
        ensures RowTimesCol(a, b, i, j)(m) == 0.0
      {
        assert b.e[m][j] == Column(b, j)[m];
      }
      assert b.e[k][j] == Column(b, j)[k];
      SumFSingle(a.cols, k, RowTimesCol(a, b, i, j));
    }
  }

  // ---------------------------------------------------------------------------
  // Products

  lemma MulIdentityLeft(m: Matrix)
    ensures Mul(Identity(m.rows), m) == m
  {
    var id := Identity(m.rows);
    var c := Mul(id, m);
    forall i, j | 0 <= i < m.rows && 0 <= j < m.cols
      ensures c.e[i][j] == m.e[i][j]
    {
      SumFSingle(m.rows, i, RowTimesCol(id, m, i, j));
    }
    assert forall i :: 0 <= i < m.rows ==> c.e[i] == m.e[i];
  }

  lemma MulIdentityRight(m: Matrix)
    ensures Mul(m, Identity(m.cols)) == m
  {
    var id := Identity(m.cols);
    var c := Mul(m, id);
    forall i, j | 0 <= i < m.rows && 0 <= j < m.cols
      ensures c.e[i][j] == m.e[i][j]
    {
      SumFSingle(m.cols, j, RowTimesCol(m, id, i, j));
    }
    assert forall i :: 0 <= i < m.rows ==> c.e[i] == m.e[i];
  }

  /** The terms a[i][l] * b[l][k] * c[k][j] of entry (i, j) of a * b * c, indexed by (l, k). */
  function TripleTerms(a: Matrix, b: Matrix, c: Matrix, i: nat, j: nat): (nat, nat) -> real
  {
    (l: nat, k: nat) =>
      if i < a.rows && l < a.cols && l < b.rows && k < b.cols && k < c.rows && j < c.cols
      then a.e[i][l] * b.e[l][k] * c.e[k][j] else 0.0
  }

  /** Entry (i, j) of (a * b) * c as a double sum, inner sum over a's columns. */
  lemma MulAssocLeft(a: Matrix, b: Matrix, c: Matrix, i: nat, j: nat)
    requires a.cols == b.rows && b.cols == c.rows && i < a.rows && j < c.cols
    ensures Mul(Mul(a, b), c).e[i][j] == SumF(b.cols, ColSums(a.cols, TripleTerms(a, b, c, i, j)))
  {
    var ab := Mul(a, b);
    var f := TripleTerms(a, b, c, i, j);
    forall k | 0 <= k < b.cols
      ensures RowTimesCol(ab, c, i, j)(k) == ColSums(a.cols, f)(k)
    {
      SumFScale(a.cols, c.e[k][j], RowTimesCol(a, b, i, k), Flip(f, k));
    }
    SumFExt(b.cols, RowTimesCol(ab, c, i, j), ColSums(a.cols, f));
  }

  /** Entry (i, j) of a * (b * c) as a double sum, inner sum over c's rows. */
  lemma MulAssocRight(a: Matrix, b: Matrix, c: Matrix, i: nat, j: nat)
    requires a.cols == b.rows && b.cols == c.rows && i < a.rows && j < c.cols
    ensures Mul(a, Mul(b, c)).e[i][j] == SumF(a.cols, RowSums(b.cols, TripleTerms(a, b, c, i, j)))
  {
    var bc := Mul(b, c);
    var f := TripleTerms(a, b, c, i, j);
    forall l | 0 <= l < a.cols
      ensures RowTimesCol(a, bc, i, j)(l) == RowSums(b.cols, f)(l)
    {
      forall k | 0 <= k < b.cols
        ensures Curry(f, l)(k) == a.e[i][l] * RowTimesCol(b, c, l, j)(k)
      {
      }
      SumFScale(b.cols, a.e[i][l], RowTimesCol(b, c, l, j), Curry(f, l));
    }
    SumFExt(a.cols, RowTimesCol(a, bc, i, j), RowSums(b.cols, f));
  }

  /** The matrix product is associative: composing three cell maps does not
      depend on how the products are grouped. */
  lemma MulAssoc(a: Matrix, b: Matrix, c: Matrix)
    requires a.cols == b.rows && b.cols == c.rows
    ensures Mul(Mul(a, b), c) == Mul(a, Mul(b, c))
  {
    var x := Mul(Mul(a, b), c);
    var y := Mul(a, Mul(b, c));
    forall i, j | 0 <= i < a.rows && 0 <= j < c.cols
      ensures x.e[i][j] == y.e[i][j]
    {
      MulAssocLeft(a, b, c, i, j);
      MulAssocRight(a, b, c, i, j);
      SumFSwap(a.cols, b.cols, TripleTerms(a, b, c, i, j));
    }
    assert forall i :: 0 <= i < a.rows ==> x.e[i] == y.e[i];
  }
}
