/** The adaptive hierarchic integrator on triangles. Every cell of the
    cache is one of the four congruent sub-triangles of its parent (three
    corner triangles and the middle one), described by a 3x3 barycentric
    map. A leaf is estimated by the base rule on the composition of the
    maps along its path, compared with the sum over its four sub-triangles,
    and split when the two differ by more than the precision. The loops of
    the source are methods here, each proved equal to the matching
    function of the shared refinement module. */
module Hierarchic2D {
  import opened Wrappers
  import opened Matrices
  import opened Common
  import opened CacheTree
  import opened Domain2D
  import opened Refinement

  /** The integrator's configuration: the base rule, whether the cache is
      frozen, and the refinement threshold. */
  datatype Hierarchic2DIntegrator = Hierarchic2DIntegrator(base: Rule2D, consolidated: bool, precision: real)
  {
    /** `dupe`: a copy with the same base rule and settings. */
    function Dupe(): (d: Hierarchic2DIntegrator)
      ensures d.base == base && d.consolidated == consolidated && d.precision == precision
    {
      Hierarchic2DIntegrator(base, consolidated, precision)
    }
  }

  // ---------------------------------------------------------------------------
  // Subdivision maps

  /** `subdivision_transformations`: the barycentric map of sub-triangle n
      (1 to 3 at the corners, 4 in the middle); every other label has no map. */
  function Subdivision(n: nat): (r: Result<Matrix>)
    ensures r.Ok? <==> 1 <= n <= 4
    ensures r.Ok? ==> r.value.rows == 3 && r.value.cols == 3
  {
    if n == 1 then Ok(Mat(3, 3, [[1.0, 0.5, 0.5], [0.0, 0.5, 0.0], [0.0, 0.0, 0.5]]))
    else if n == 2 then Ok(Mat(3, 3, [[0.0, 0.0, 0.5], [1.0, 0.5, 0.5], [0.0, 0.5, 0.0]]))
    else if n == 3 then Ok(Mat(3, 3, [[0.0, 0.5, 0.0], [0.0, 0.0, 0.5], [1.0, 0.5, 0.5]]))
    else if n == 4 then Ok(Mat(3, 3, [[0.5, 0.5, 0.0], [0.0, 0.5, 0.5], [0.5, 0.0, 0.5]]))
    else Err(NoTransformation(n))
  }

  /** Each sub-triangle map sends barycentric coordinates to barycentric
      coordinates, has vertices and edge midpoints as its corners, and keeps
      the orientation while quartering the area. */
  lemma SubdivisionQuarters(n: nat)
    requires 1 <= n <= 4
    ensures UnitColumns(Subdivision(n).value) && HalfEntries(Subdivision(n).value)
    ensures Det3(Subdivision(n).value) == 0.25
  {
    var m := Subdivision(n).value;
    forall j | 0 <= j < 3
      ensures ColSum(m, j) == 1.0
    {
      assert ColSum(m, j) == SumF(3, ColFn(m, j));
      assert SumF(3, ColFn(m, j)) == ColFn(m, j)(0) + ColFn(m, j)(1) + ColFn(m, j)(2);
    }
  }

  /** The product T(path[n - 1]) * ... * T(path[0]) built by the first n
      iterations of the loop of `get_transformation`, starting from the identity. */
  function Chain(path: seq<nat>, n: nat): (r: Result<Matrix>)
    requires n <= |path|
    ensures r.Ok? <==> forall k :: 0 <= k < n ==> 1 <= path[k] <= 4
    ensures r.Ok? ==> r.value.rows == 3 && r.value.cols == 3
  {
    if n == 0 then Ok(Identity(3))
    else match Chain(path, n - 1)
      case Err(e) => Err(e)
      case Ok(acc) =>
        match Subdivision(path[n - 1])
        case Err(e) => Err(e)
        case Ok(s) => Ok(Mul(s, acc))
  }

  /** The map of the cell whose labels, leaf first, are `path`: the maps of
      every label but the root's, composed from the root down; an empty
      path and a label without a map panic. */
  function Transformation(path: seq<nat>): (r: Result<Matrix>)
  {
    if |path| == 0 then Err(EmptyPath) else Chain(path, |path| - 1)
  }

  /** `get_transformation`: the loop over every label but the last (the root's). */
  method GetTransformation(path: seq<nat>) returns (r: Result<Matrix>)
    ensures r == Transformation(path)
  {
    if |path| == 0 {
      return Err(EmptyPath);
    }
    var result := Identity(3);
    for i := 0 to |path| - 1
      invariant Chain(path, i) == Ok(result)
    {
      var current := Subdivision(path[i]);
      if current.Err? {
        ChainErrorStays(path, i + 1, |path| - 1);
        return Err(current.error);
      }
      result := Mul(current.value, result);
    }
    return Ok(result);
  }

  /** A label without a map makes every longer chain fail with the same panic. */
  lemma {:induction false} ChainErrorStays(path: seq<nat>, n: nat, m: nat)
    requires n <= m <= |path| && Chain(path, n).Err?
    ensures Chain(path, m) == Chain(path, n)
    decreases m
  {
    if m > n {
      ChainErrorStays(path, n, m - 1);
    }
  }

  /** The root's map is the identity, whatever its label. */
  lemma RootTransformation(n: nat)
    ensures Transformation([n]) == Ok(Identity(3))
  {
  }

  /** Sub-triangle l of the cell at `path` has the cell's map followed by
      the map of sub-triangle l. */
  lemma ChildTransformation(l: nat, path: seq<nat>)
    requires 1 <= l <= 4 && |path| > 0 && Transformation(path).Ok?
    ensures Transformation([l] + path) == Ok(Mul(Transformation(path).value, Subdivision(l).value))
  {
    ChainChild(l, path, |path| - 1);
  }

  lemma {:induction false} ChainChild(l: nat, path: seq<nat>, n: nat)
    requires 1 <= l <= 4 && n <= |path| && Chain(path, n).Ok?
    ensures Chain([l] + path, n + 1) == Ok(Mul(Chain(path, n).value, Subdivision(l).value))
  {
    var s := Subdivision(l).value;
    if n == 0 {
      MulIdentityRight(s);
      MulIdentityLeft(s);
    } else {
      ChainChild(l, path, n - 1);
      var prev := Chain(path, n - 1).value;
      var t := Subdivision(path[n - 1]).value;
      assert ([l] + path)[n] == path[n - 1];
      MulAssoc(t, prev, s);
    }
  }

  /** Every map the loop builds is a barycentric map. */
  lemma {:induction false} ChainBarycentric(path: seq<nat>, n: nat)
    requires n <= |path| && Chain(path, n).Ok?
    ensures UnitColumns(Chain(path, n).value)
  {
    if n == 0 {
      IdentityUnitColumns(3);
    } else {
      ChainBarycentric(path, n - 1);
      SubdivisionQuarters(path[n - 1]);
      MulUnitColumns(Subdivision(path[n - 1]).value, Chain(path, n - 1).value);
    }
  }

  // ---------------------------------------------------------------------------
  // Estimates

  /** The base rule on the cell at `path`, mapped through the caller's
      transformation; a transformation with other than three columns panics. */
  function Estimate(integrator: Hierarchic2DIntegrator, transformation: Matrix, f: Integrand2D, s: Simplex2D, path: seq<nat>): (r: Result<real>)
    ensures r.Ok? <==> Transformation(path).Ok? && transformation.cols == 3
  {
    match Transformation(path)
    case Err(e) => Err(e)
    case Ok(trans) =>
      match Dot(transformation, trans)
      case Err(e) => Err(e)
      case Ok(child) => Ok(integrator.base(child, f, s))
  }

  /** The body of the leaf branch that estimates one cell. */
  method EstimateCell(integrator: Hierarchic2DIntegrator, transformation: Matrix, f: Integrand2D, s: Simplex2D, path: seq<nat>)
    returns (r: Result<real>)
    ensures r == Estimate(integrator, transformation, f, s, path)
  {
    var trans := GetTransformation(path);
    if trans.Err? {
      return Err(trans.error);
    }
    var child := Dot(transformation, trans.value);
    if child.Err? {
      return Err(child.error);
    }
    r := Ok(integrator.base(child.value, f, s));
  }

  /** The estimate of the whole domain under the identity is the base rule's `integrate`. */
  lemma RootEstimate(integrator: Hierarchic2DIntegrator, f: Integrand2D, s: Simplex2D, n: nat)
    ensures Estimate(integrator, Identity(3), f, s, [n]) == Ok(Integrate(integrator.base, f, s))
  {
    MulIdentityLeft(Identity(3));
  }

  /** The labels of the four sub-triangles. */
  function ChildLabels(n: nat): seq<nat>
  {
    [1, 2, 3, 4]
  }

  /** The integrator, the caller's transformation, the integrand and the
      triangle, seen as an instance of the shared refinement pass. */
  function Refiner2D(integrator: Hierarchic2DIntegrator, transformation: Matrix, f: Integrand2D, s: Simplex2D): Refiner
  {
    Refiner((path: seq<nat>) => Estimate(integrator, transformation, f, s, path), ChildLabels,
            integrator.consolidated, integrator.precision)
  }

  /** The loop over the four sub-triangles of the cell at `path`, adding their estimates. */
  method RefinedEstimate(integrator: Hierarchic2DIntegrator, transformation: Matrix, f: Integrand2D, s: Simplex2D, path: seq<nat>)
    returns (r: Result<real>)
    ensures r == ChildSum(Refiner2D(integrator, transformation, f, s), path, [1, 2, 3, 4], 4)
  {
    ghost var rf := Refiner2D(integrator, transformation, f, s);
    var childResult := 0.0;
    for i := 0 to 4
      invariant ChildSum(rf, path, [1, 2, 3, 4], i) == Ok(childResult)
    {
      var childVec := [i + 1] + path;
      var v := EstimateCell(integrator, transformation, f, s, childVec);
      if v.Err? {
        ChildSumErrorStays(rf, path, [1, 2, 3, 4], i + 1, 4);
        return Err(v.error);
      }
      childResult := childResult + v.value;
    }
    r := Ok(childResult);
  }

  // ---------------------------------------------------------------------------
  // The cache

  /** `Hierarchic2DIntegratorData`: whether the cache has been built, and
      the arena of cells (the root at index 0). */
  class Hierarchic2DIntegratorData {
    var cached: bool
    var nodes: seq<Node>

    ghost predicate Valid()
      reads this
    {
      WellFormed(nodes)
    }

    /** `new_cache`: a single unchecked root cell, not yet marked as built. */
    constructor NewCache()
      ensures Valid() && !cached && nodes == Fresh()
    {
      cached := false;
      nodes := Fresh();
    }

    /** `make_leafs_unchecked`: a depth-first walk clearing the flag of every leaf. */
    method MakeLeafsUnchecked()
      requires Valid()
      modifies this
      ensures Valid() && cached == old(cached) && nodes == UncheckLeaves(old(nodes))
    {
      ghost var t := nodes;
      Traversal(t);
      var order := PostOrder(nodes, 0);
      for k := 0 to |order|
        invariant |nodes| == |t| && cached == old(cached)
        invariant forall i :: 0 <= i < |t| ==>
          nodes[i] == if i in order[..k] && IsLeaf(t, i) then UncheckLeaves(t)[i] else t[i]
      {
        var id := order[k];
        assert order[..k + 1] == order[..k] + [id];
        assert id in order;
        if IsLeaf(nodes, id) {
          nodes := SetChecked(nodes, id, false);
        }
      }
      assert order[..|order|] == order;
      assert forall i :: 0 <= i < |t| ==> nodes[i] == UncheckLeaves(t)[i];
      assert nodes == UncheckLeaves(t);
      UncheckLeavesShape(t);
    }

    /** `tree_size`: the number of cells in the cache. */
    function TreeSize(): (n: nat)
      reads this
      ensures Valid() ==> n >= 1
      ensures n == |nodes|
    {
      |nodes|
    }

    /** The append loop: the four sub-triangles of cell id, labels 1 to 4, as unchecked leaves. */
    method AppendSubdivision(id: nat)
      requires id < |nodes|
      modifies this
      ensures cached == old(cached) && nodes == AddChildren(old(nodes), id, [1, 2, 3, 4])
    {
      ghost var t := nodes;
      for i := 0 to 4
        invariant cached == old(cached)
        invariant nodes == AddChildren(t, id, [1, 2, 3, 4][..i])
      {
        AddChildrenSnoc(t, id, [1, 2, 3, 4][..i], i + 1);
        assert [1, 2, 3, 4][..i + 1] == [1, 2, 3, 4][..i] + [i + 1];
        nodes := AppendChild(nodes, id, i + 1);
      }
      assert [1, 2, 3, 4][..4] == [1, 2, 3, 4];
    }

    /** The body of the depth-first loop for the cell id: the decision for a
        leaf, the update of the cache and the new total. */
    method VisitCell(integrator: Hierarchic2DIntegrator, transformation: Matrix, f: Integrand2D, s: Simplex2D,
                     id: nat, acc: real, changed: bool) returns (res: Result<PassState>)
      requires Valid()
      modifies this
      ensures res == Visit(Refiner2D(integrator, transformation, f, s), PassState(old(nodes), acc, changed), id)
      ensures res.Ok? ==> nodes == res.value.nodes
      ensures res.Err? ==> nodes == old(nodes)
      ensures cached == old(cached)
    {
      ghost var rf := Refiner2D(integrator, transformation, f, s);
      ghost var t := nodes;
      if !(id < |nodes| && IsLeaf(nodes, id)) {
        return Ok(PassState(nodes, acc, changed));
      }
      var path := Ancestors(nodes, id);
      var current := EstimateCell(integrator, transformation, f, s, path);
      if current.Err? {
        return Err(current.error);
      }
      var value := current.value;
      var split := false;
      if !nodes[id].data.checked && !integrator.consolidated {
        var childResult := RefinedEstimate(integrator, transformation, f, s, path);
        if childResult.Err? {
          return Err(childResult.error);
        }
        nodes := SetChecked(nodes, id, true);
        if Abs(value - childResult.value) > integrator.precision {
          AppendSubdivision(id);
          split := true;
          value := childResult.value;
        }
      }
      assert Decide(rf, path, t[id].data.checked) == Ok(Decision(value, split));
      res := Ok(PassState(nodes, acc + value, changed || split));
    }

    /** One pass of the outer loop: the depth-first walk over the cache as it
        stood when the pass began. */
    method RunPass(integrator: Hierarchic2DIntegrator, transformation: Matrix, f: Integrand2D, s: Simplex2D)
      returns (r: Result<real>, changed: bool)
      requires Valid()
      modifies this
      ensures cached == old(cached) && Valid()
      ensures var p := Pass(Refiner2D(integrator, transformation, f, s), old(nodes));
        (p.Err? ==> r == Err(p.error)) &&
        (p.Ok? ==> r == Ok(p.value.acc) && changed == p.value.changed && nodes == p.value.nodes && Valid())
    {
      ghost var rf := Refiner2D(integrator, transformation, f, s);
      ghost var t := nodes;
      PostOrderWalk(t);
      var order := PostOrder(nodes, 0);
      var state: Result<PassState> := Ok(PassState(nodes, 0.0, false));
      for k := 0 to |order|
        invariant state == RunPrefix(rf, order, k, PassState(t, 0.0, false))
        invariant state.Ok? ==> nodes == state.value.nodes
        invariant cached == old(cached) && Valid()
      {
        // after a panic no further cell is visited
        if state.Ok? {
          RunPrefixNext(rf, t, order, k, state.value);
          state := VisitCell(integrator, transformation, f, s, order[k], state.value.acc, state.value.changed);
        }
      }
      if state.Err? {
        return Err(state.error), false;
      }
      r, changed := Ok(state.value.acc), state.value.changed;
    }
  }

  /** `integrate_over_domain` with at most `fuel` passes: the cache is built
      on first use, then passes are repeated until one splits nothing. */
  method IntegrateOverDomain(integrator: Hierarchic2DIntegrator, transformation: Matrix, f: Integrand2D, s: Simplex2D,
                             data: Hierarchic2DIntegratorData, fuel: nat) returns (r: Result<real>, finished: bool)
    requires data.Valid()
    modifies data
    ensures data.cached && data.Valid()
    ensures var start := if old(data.cached) then old(data.nodes) else Fresh();
      match Converge(Refiner2D(integrator, transformation, f, s), start, fuel)
      case Err(e) => r == Err(e)
      case Ok(Done(v, u)) => r == Ok(v) && finished && data.nodes == u
      case Ok(Unfinished(u)) => !finished && data.nodes == u
  {
    ghost var rf := Refiner2D(integrator, transformation, f, s);
    if !data.cached {
      data.nodes := Fresh();
      data.cached := true;
    }
    ghost var start := data.nodes;
    var changed := true;
    r := Ok(0.0);
    var left := fuel;
    // a pass that panics ends the loop with its panic
    while r.Ok? && changed && left > 0
      invariant data.cached && data.Valid()
      invariant Converge(rf, start, fuel) ==
        if r.Err? then Err(r.error) else if changed then Converge(rf, data.nodes, left) else Ok(Done(r.value, data.nodes))
      decreases left
    {
      left := left - 1;
      r, changed := data.RunPass(integrator, transformation, f, s);
    }
    finished := r.Ok? && !changed;
  }

  // ---------------------------------------------------------------------------
  // The 2D integrator never panics on a well-built cache

  /** Every cell below the root carries the label of a sub-triangle. */
  ghost predicate LabelsValid(t: seq<Node>)
  {
    forall i :: 0 < i < |t| ==> 1 <= t[i].data.number <= 4
  }

  lemma {:induction false} PathTransformationDefined(t: seq<Node>, i: nat)
    requires WellFormed(t) && LabelsValid(t) && i < |t|
    ensures Transformation(Path(t, i)).Ok?
    decreases i
  {
    var p := Path(t, i);
    PathEndsAtRoot(t, i);
    if i > 0 {
      assert ParentOk(t, i);
      PathTransformationDefined(t, t[i].parent.value);
      var q := Path(t, t[i].parent.value);
      assert p == [t[i].data.number] + q;
      ChildTransformation(t[i].data.number, q);
    }
  }

  /** With a transformation of three columns, every leaf of a cache whose
      labels are sub-triangle labels is decided without a panic, and the
      pass keeps the labels valid. */
  lemma PassNeverFails(integrator: Hierarchic2DIntegrator, transformation: Matrix, f: Integrand2D, s: Simplex2D, t: seq<Node>)
    requires WellFormed(t) && LabelsValid(t) && transformation.cols == 3
    ensures Pass(Refiner2D(integrator, transformation, f, s), t).Ok?
    ensures LabelsValid(Pass(Refiner2D(integrator, transformation, f, s), t).value.nodes)
  {
    var rf := Refiner2D(integrator, transformation, f, s);
    forall i | 0 <= i < |t| && IsLeaf(t, i)
      ensures LeafOutcome(rf, t, i).Ok?
    {
      LeafNeverFails(integrator, transformation, f, s, t, i);
    }
    PassEffect(rf, t);
    PassKeepsLabelsValid(rf, t);
  }

  /** The nodes a pass appends carry sub-triangle labels. */
  lemma PassKeepsLabelsValid(rf: Refiner, t: seq<Node>)
    requires WellFormed(t) && LabelsValid(t) && Pass(rf, t).Ok?
    requires rf.labels == ChildLabels
    ensures LabelsValid(Pass(rf, t).value.nodes)
  {
    PassNewLeaves(rf, t);
    var u := Pass(rf, t).value.nodes;
    forall j | 0 < j < |u|
      ensures 1 <= u[j].data.number <= 4
    {
      if j >= |t| {
        assert u[j].data.number in ChildLabels(t[u[j].parent.value].data.number);
      }
    }
  }

  lemma LeafNeverFails(integrator: Hierarchic2DIntegrator, transformation: Matrix, f: Integrand2D, s: Simplex2D, t: seq<Node>, i: nat)
    requires WellFormed(t) && LabelsValid(t) && transformation.cols == 3 && i < |t|
    ensures LeafOutcome(Refiner2D(integrator, transformation, f, s), t, i).Ok?
  {
    var rf := Refiner2D(integrator, transformation, f, s);
    var p := Path(t, i);
    PathTransformationDefined(t, i);
    forall k | 0 <= k < 4
      ensures rf.coarse([[1, 2, 3, 4][k]] + p).Ok?
    {
      ChildTransformation([1, 2, 3, 4][k], p);
    }
  }

  /** Hence the integrator never panics: started from a fresh cache or any
      cache it built itself, every run of the outer loop succeeds. */
  lemma {:induction false} ConvergeNeverFails(integrator: Hierarchic2DIntegrator, transformation: Matrix, f: Integrand2D, s: Simplex2D, t: seq<Node>, fuel: nat)
    requires WellFormed(t) && LabelsValid(t) && transformation.cols == 3
    ensures Converge(Refiner2D(integrator, transformation, f, s), t, fuel).Ok?
    decreases fuel
  {
    if fuel > 0 {
      PassNeverFails(integrator, transformation, f, s, t);
      var st := Pass(Refiner2D(integrator, transformation, f, s), t).value;
      if st.changed {
        ConvergeNeverFails(integrator, transformation, f, s, st.nodes, fuel - 1);
      }
    }
  }
}
