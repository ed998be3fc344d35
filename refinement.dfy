/** The refinement pass shared by the 2D and the 3D hierarchic integrators,
    stated once over what differs between them: how a cell is estimated
    from its path of labels, and which labels a cell of a given label splits
    into. A pass walks the cache depth-first, estimates every leaf, compares
    each leaf that is neither checked nor consolidated with the sum over its
    sub-cells, splits it when the two differ by more than the precision, and
    adds up the accepted estimates. The dimension-specific modules prove
    their loops equal to `Visit`, `Pass` and `Converge` below. */
module Refinement {
  import opened Wrappers
  import opened CacheTree

  /** `coarse(path)` estimates the cell whose labels, leaf first, are `path`
      (the base rule applied to the composed transformation);
      `labels(n)` are the labels of the sub-cells of a cell with label n. */
  datatype Refiner = Refiner(
    coarse: seq<nat> -> Result<real>,
    labels: nat -> seq<nat>,
    consolidated: bool,
    precision: real)

  function Abs(x: real): (a: real)
    ensures a >= 0.0 && (a == x || a == -x)
  {
    if x < 0.0 then -x else x
  }

  /** The estimates of the first n sub-cells of the cell at `path`, added in
      order; the first one that fails makes the sum fail. */
  function ChildSum(r: Refiner, path: seq<nat>, ls: seq<nat>, n: nat): (s: Result<real>)
    requires n <= |ls|
    ensures s.Ok? <==> forall k :: 0 <= k < n ==> r.coarse([ls[k]] + path).Ok?
  {
    if n == 0 then Ok(0.0)
    else match ChildSum(r, path, ls, n - 1)
      case Err(e) => Err(e)
      case Ok(acc) =>
        match r.coarse([ls[n - 1]] + path)
        case Err(e) => Err(e)
        case Ok(v) => Ok(acc + v)
  }

  /** A sub-cell whose estimate fails makes every longer sum fail with the same panic. */
  lemma {:induction false} ChildSumErrorStays(rf: Refiner, path: seq<nat>, ls: seq<nat>, n: nat, m: nat)
    requires n <= m <= |ls| && ChildSum(rf, path, ls, n).Err?
    ensures ChildSum(rf, path, ls, m) == ChildSum(rf, path, ls, n)
    decreases m
  {
    if m > n {
      ChildSumErrorStays(rf, path, ls, n, m - 1);
    }
  }

  /** The value a leaf contributes to the pass, and whether it is split. */
  datatype Decision = Decision(value: real, split: bool)

  /** What a pass decides for a leaf with this path and flag: a checked or
      consolidated leaf contributes its estimate unchanged; any other leaf
      is compared with the sum over its sub-cells, and the finer sum wins
      (and the leaf is split) exactly when the two differ by more than the
      precision. */
  function Decide(r: Refiner, path: seq<nat>, checked: bool): (d: Result<Decision>)
    requires |path| > 0
    ensures d.Ok? ==> r.coarse(path).Ok?
    ensures (checked || r.consolidated) ==> (d.Ok? <==> r.coarse(path).Ok?)
    ensures d.Ok? && !d.value.split ==> d.value.value == r.coarse(path).value
    ensures d.Ok? && d.value.split ==>
      !checked && !r.consolidated &&
      var ls := r.labels(path[0]);
      var f := ChildSum(r, path, ls, |ls|);
      f.Ok? && d.value.value == f.value && Abs(r.coarse(path).value - f.value) > r.precision
    ensures d.Ok? && !checked && !r.consolidated ==>
      var ls := r.labels(path[0]);
      var f := ChildSum(r, path, ls, |ls|);
      f.Ok? && (d.value.split <==> Abs(r.coarse(path).value - f.value) > r.precision)
  {
    match r.coarse(path)
    case Err(e) => Err(e)
    case Ok(c) =>
      if checked || r.consolidated then Ok(Decision(c, false))
      else
        var ls := r.labels(path[0]);
        match ChildSum(r, path, ls, |ls|)
        case Err(e) => Err(e)
        case Ok(f) =>
          if Abs(c - f) > r.precision then Ok(Decision(f, true)) else Ok(Decision(c, false))
  }

  // ---------------------------------------------------------------------------
  // One pass over the cache

  /** The cache, the running total and `state_changed` during a pass. */
  datatype PassState = PassState(nodes: seq<Node>, acc: real, changed: bool)

  /** The cache after leaf id has been decided: flagged checked when it was
      compared, and given one new child per sub-cell label when it is split. */
  function Grow(r: Refiner, nodes: seq<Node>, id: nat, d: Decision): seq<Node>
    requires id < |nodes|
  {
    var node := nodes[id];
    var marked := if !node.data.checked && !r.consolidated then SetChecked(nodes, id, true) else nodes;
    if d.split then AddChildren(marked, id, r.labels(node.data.number)) else marked
  }

  /** The work done when the walk leaves node id: nothing unless it is a
      leaf; otherwise decide, update the cache and add the leaf's value. */
  function Visit(r: Refiner, st: PassState, id: nat): Result<PassState>
  {
    if id < |st.nodes| && IsLeaf(st.nodes, id) then
      match Decide(r, Path(st.nodes, id), st.nodes[id].data.checked)
      case Err(e) => Err(e)
      case Ok(d) => Ok(PassState(Grow(r, st.nodes, id, d), st.acc + d.value, st.changed || d.split))
    else
      Ok(st)
  }

  /** The update of a leaf keeps the tree well formed and touches nothing
      but the leaf and the nodes it appends. */
  lemma GrowEffect(r: Refiner, nodes: seq<Node>, id: nat, d: Decision)
    requires WellFormed(nodes) && id < |nodes| && IsLeaf(nodes, id)
    ensures var u := Grow(r, nodes, id, d);
      var ls := r.labels(nodes[id].data.number);
      WellFormed(u) && SameSpine(nodes, u) &&
      (forall j :: 0 <= j < |nodes| && j != id ==> u[j] == nodes[j]) &&
      u[id].data == NodeData(nodes[id].data.checked || !r.consolidated, nodes[id].data.number) &&
      u[id].parent == nodes[id].parent &&
      (d.split ==> |u| == |nodes| + |ls| && u[id].children == Range(|nodes|, |ls|) &&
                   forall k :: 0 <= k < |ls| ==> u[|nodes| + k] == Node(NodeData(false, ls[k]), Some(id), [])) &&
      (!d.split ==> |u| == |nodes| && u[id].children == [])
  {
    var node := nodes[id];
    var marked := if !node.data.checked && !r.consolidated then SetChecked(nodes, id, true) else nodes;
    SetCheckedWellFormed(nodes, id, true);
    if d.split {
      AddChildrenWellFormed(marked, id, r.labels(node.data.number));
    }
  }

  /** The first n visits of a walk in the given order. */
  function RunPrefix(r: Refiner, order: seq<nat>, n: nat, st: PassState): Result<PassState>
    requires n <= |order|
  {
    if n == 0 then Ok(st)
    else match RunPrefix(r, order, n - 1, st)
      case Err(e) => Err(e)
      case Ok(s) => Visit(r, s, order[n - 1])
  }

  /** A visit that fails makes the rest of the walk fail with the same panic. */
  lemma {:induction false} RunPrefixErrorStays(r: Refiner, order: seq<nat>, n: nat, m: nat, st: PassState)
    requires n <= m <= |order| && RunPrefix(r, order, n, st).Err?
    ensures RunPrefix(r, order, m, st) == RunPrefix(r, order, n, st)
    decreases m
  {
    if m > n {
      RunPrefixErrorStays(r, order, n, m - 1, st);
    }
  }

  /** One more step of the walk is one more visit, and keeps the cache well formed. */
  lemma RunPrefixNext(r: Refiner, t: seq<Node>, order: seq<nat>, k: nat, st: PassState)
    requires WellFormed(t) && WalkOrder(t, order) && k < |order|
    requires RunPrefix(r, order, k, PassState(t, 0.0, false)) == Ok(st)
    ensures WellFormed(st.nodes)
    ensures RunPrefix(r, order, k + 1, PassState(t, 0.0, false)) == Visit(r, st, order[k])
    ensures Visit(r, st, order[k]).Ok? ==> WellFormed(Visit(r, st, order[k]).value.nodes)
  {
    RunPrefixInv(r, t, order, k);
    RunPrefixInv(r, t, order, k + 1);
  }

  /** One iteration of the outer loop: a walk over the cache as it stands,
      starting from a zero total and an unchanged state. */
  function Pass(r: Refiner, t: seq<Node>): (res: Result<PassState>)
    requires WellFormed(t)
    ensures res.Ok? ==> WellFormed(res.value.nodes) && SameSpine(t, res.value.nodes)
  {
    PostOrderWalk(t);
    var order := PostOrder(t, 0);
    RunPrefixInv(r, t, order, |order|);
    RunPrefix(r, order, |order|, PassState(t, 0.0, false))
  }

  // ---------------------------------------------------------------------------
  // What a pass does, leaf by leaf

  /** The decision for leaf i of the cache t as it was when the pass started. */
  function LeafOutcome(r: Refiner, t: seq<Node>, i: nat): Result<Decision>
    requires i < |t|
  {
    Decide(r, Path(t, i), t[i].data.checked)
  }

  /** Node i is a leaf of t that the pass decides to split. */
  ghost predicate SplitsAt(r: Refiner, t: seq<Node>, i: nat)
    requires i < |t|
  {
    IsLeaf(t, i) && LeafOutcome(r, t, i).Ok? && LeafOutcome(r, t, i).value.split
  }

  /** i is not a leaf of t, or its decision succeeds. */
  predicate LeafOk(r: Refiner, t: seq<Node>, i: nat)
  {
    i < |t| && IsLeaf(t, i) ==> LeafOutcome(r, t, i).Ok?
  }

  /** The value leaf i contributes (0 for anything that is not a leaf). */
  function LeafValue(r: Refiner, t: seq<Node>, i: nat): real
  {
    if i < |t| && IsLeaf(t, i) && LeafOutcome(r, t, i).Ok? then LeafOutcome(r, t, i).value.value else 0.0
  }

  /** The values of the first n nodes of the walk, added in walk order. */
  function LeafSum(r: Refiner, t: seq<Node>, order: seq<nat>, n: nat): real
    requires n <= |order|
  {
    if n == 0 then 0.0 else LeafSum(r, t, order, n - 1) + LeafValue(r, t, order[n - 1])
  }

  /** Leaf i of t has been given its sub-cells in u: one new unchecked leaf
      per label, in label order, each naming i as its parent. */
  ghost predicate Grown(r: Refiner, t: seq<Node>, u: seq<Node>, i: nat)
    requires i < |t| <= |u|
  {
    var ls := r.labels(t[i].data.number);
    |u[i].children| == |ls| &&
    forall k :: 0 <= k < |ls| ==>
      |t| <= u[i].children[k] < |u| && u[u[i].children[k]] == Node(NodeData(false, ls[k]), Some(i), [])
  }

  /** The state of leaf i of t in u after its visit: flagged checked when it
      was compared, and split exactly as decided. */
  ghost predicate Refined(r: Refiner, t: seq<Node>, u: seq<Node>, i: nat)
    requires i < |t| <= |u| && LeafOutcome(r, t, i).Ok?
  {
    u[i].data == NodeData(t[i].data.checked || !r.consolidated, t[i].data.number) &&
    u[i].parent == t[i].parent &&
    (if LeafOutcome(r, t, i).value.split then Grown(r, t, u, i) else u[i].children == [])
  }

  /** The nodes appended during a pass are unchecked leaves, each a
      sub-cell of an old leaf that the pass split. */
  ghost predicate NewLeaves(r: Refiner, t: seq<Node>, u: seq<Node>)
  {
    forall j :: |t| <= j < |u| ==>
      u[j].children == [] && !u[j].data.checked && u[j].parent.Some? && u[j].parent.value < |t| &&
      SplitsAt(r, t, u[j].parent.value) && u[j].data.number in r.labels(t[u[j].parent.value].data.number)
  }

  /** Every node of t except the visited leaves is as it was. */
  ghost predicate Kept(t: seq<Node>, visited: seq<nat>, u: seq<Node>)
    requires |t| <= |u|
  {
    forall i :: 0 <= i < |t| && !(i in visited && IsLeaf(t, i)) ==> u[i] == t[i]
  }

  /** Every visited leaf of t has been decided and refined as decided. */
  ghost predicate AllRefined(r: Refiner, t: seq<Node>, visited: seq<nat>, u: seq<Node>)
    requires |t| <= |u|
  {
    forall i :: 0 <= i < |t| && i in visited && IsLeaf(t, i) ==> LeafOutcome(r, t, i).Ok? && Refined(r, t, u, i)
  }

  /** `changed` says whether some visited leaf was split. */
  ghost predicate ChangedIff(r: Refiner, t: seq<Node>, visited: seq<nat>, changed: bool)
  {
    changed <==> exists i :: 0 <= i < |t| && i in visited && SplitsAt(r, t, i)
  }

  /** What holds after the first n visits of a walk of t in the given order. */
  ghost predicate PassInv(r: Refiner, t: seq<Node>, order: seq<nat>, n: nat, st: PassState)
    requires n <= |order|
  {
    WellFormed(st.nodes) && SameSpine(t, st.nodes) &&
    Kept(t, order[..n], st.nodes) &&
    AllRefined(r, t, order[..n], st.nodes) &&
    NewLeaves(r, t, st.nodes) &&
    ChangedIff(r, t, order[..n], st.changed) &&
    (!st.changed ==> |st.nodes| == |t|) &&
    st.acc == LeafSum(r, t, order, n)
  }

  /** A walk order over the nodes of t, each at most once. */
  ghost predicate WalkOrder(t: seq<Node>, order: seq<nat>)
  {
    Distinct(order) && forall k :: 0 <= k < |order| ==> order[k] < |t|
  }

  /** The depth-first walk of a well-formed cache is a walk order over it. */
  lemma PostOrderWalk(t: seq<Node>)
    requires WellFormed(t)
    ensures WalkOrder(t, PostOrder(t, 0))
  {
    Traversal(t);
    var order := PostOrder(t, 0);
    assert forall k :: 0 <= k < |order| ==> order[k] in order;
  }

  lemma PassInvStart(r: Refiner, t: seq<Node>, order: seq<nat>)
    requires WellFormed(t)
    ensures PassInv(r, t, order, 0, PassState(t, 0.0, false))
  {
    assert order[..0] == [];
  }

  /** Visiting a node that is not a leaf changes nothing. */
  lemma VisitInner(r: Refiner, t: seq<Node>, order: seq<nat>, n: nat, st: PassState)
    requires WellFormed(t) && WalkOrder(t, order) && n < |order| && PassInv(r, t, order, n, st)
    requires !IsLeaf(t, order[n])
    ensures Visit(r, st, order[n]) == Ok(st)
    ensures PassInv(r, t, order, n + 1, st)
  {
    var id := order[n];
    assert order[..n + 1] == order[..n] + [id];
  }

  /** Visiting a leaf for the first time decides it exactly as `LeafOutcome` does. */
  lemma VisitLeafDecision(r: Refiner, t: seq<Node>, order: seq<nat>, n: nat, st: PassState)
    requires WellFormed(t) && WalkOrder(t, order) && n < |order| && PassInv(r, t, order, n, st)
    ensures order[n] < |st.nodes| && st.nodes[order[n]] == t[order[n]]
    ensures Path(st.nodes, order[n]) == Path(t, order[n])
  {
    var id := order[n];
    assert forall k :: 0 <= k < n ==> order[..n][k] != id;
    assert id !in order[..n];
    PathOfSameSpine(t, st.nodes, id);
  }

  /** Visiting a leaf keeps the invariant, and fails exactly when its decision does. */
  lemma VisitLeaf(r: Refiner, t: seq<Node>, order: seq<nat>, n: nat, st: PassState)
    requires WellFormed(t) && WalkOrder(t, order) && n < |order| && PassInv(r, t, order, n, st)
    requires IsLeaf(t, order[n])
    ensures Visit(r, st, order[n]).Ok? <==> LeafOutcome(r, t, order[n]).Ok?
    ensures Visit(r, st, order[n]).Ok? ==> PassInv(r, t, order, n + 1, Visit(r, st, order[n]).value)
  {
    var id := order[n];
    VisitLeafDecision(r, t, order, n, st);
    if LeafOutcome(r, t, id).Ok? {
      var d := LeafOutcome(r, t, id).value;
      var st' := PassState(Grow(r, st.nodes, id, d), st.acc + d.value, st.changed || d.split);
      assert Visit(r, st, id) == Ok(st');
      VisitLeafOk(r, t, order, n, st, d);
    }
  }

  lemma VisitLeafOk(r: Refiner, t: seq<Node>, order: seq<nat>, n: nat, st: PassState, d: Decision)
    requires WellFormed(t) && WalkOrder(t, order) && n < |order| && PassInv(r, t, order, n, st)
    requires IsLeaf(t, order[n]) && order[n] < |st.nodes| && st.nodes[order[n]] == t[order[n]]
    requires LeafOutcome(r, t, order[n]) == Ok(d)
    ensures PassInv(r, t, order, n + 1, PassState(Grow(r, st.nodes, order[n], d), st.acc + d.value, st.changed || d.split))
  {
    var id := order[n];
    var u := Grow(r, st.nodes, id, d);
    GrowEffect(r, st.nodes, id, d);
    assert order[..n + 1] == order[..n] + [id];
    KeptStep(t, order[..n], st.nodes, id, u);
    RefinedStep(r, t, order[..n], st.nodes, id, d);
    ChangedStep(r, t, order[..n], st.changed, id, d);
    NewLeavesStep(r, t, st.nodes, id, d);
    assert LeafSum(r, t, order, n + 1) == LeafSum(r, t, order, n) + d.value;
  }

  lemma KeptStep(t: seq<Node>, visited: seq<nat>, nodes: seq<Node>, id: nat, u: seq<Node>)
    requires |t| <= |nodes| <= |u| && id < |t| && IsLeaf(t, id) && Kept(t, visited, nodes)
    requires forall j :: 0 <= j < |nodes| && j != id ==> u[j] == nodes[j]
    ensures Kept(t, visited + [id], u)
  {
    assert id in visited + [id];
    forall i | 0 <= i < |t| && i != id && !(i in visited + [id] && IsLeaf(t, i))
      ensures u[i] == t[i]
    {
      assert !(i in visited && IsLeaf(t, i));
    }
  }

  lemma RefinedStep(r: Refiner, t: seq<Node>, visited: seq<nat>, nodes: seq<Node>, id: nat, d: Decision)
    requires WellFormed(nodes) && |t| <= |nodes| && id < |t| && IsLeaf(t, id) && nodes[id] == t[id]
    requires AllRefined(r, t, visited, nodes) && NewLeaves(r, t, nodes) && LeafOutcome(r, t, id) == Ok(d)
    ensures AllRefined(r, t, visited + [id], Grow(r, nodes, id, d))
  {
    var u := Grow(r, nodes, id, d);
    GrowEffect(r, nodes, id, d);
    RefinedHere(r, t, nodes, id, d);
    forall i | 0 <= i < |t| && i in visited && IsLeaf(t, i) && i != id
      ensures Refined(r, t, u, i)
    {
      RefinedFrame(r, t, nodes, u, id, i);
    }
  }

  /** The leaf just visited is refined as decided. */
  lemma RefinedHere(r: Refiner, t: seq<Node>, nodes: seq<Node>, id: nat, d: Decision)
    requires WellFormed(nodes) && |t| <= |nodes| && id < |t| && IsLeaf(t, id) && nodes[id] == t[id]
    requires LeafOutcome(r, t, id) == Ok(d)
    ensures |nodes| <= |Grow(r, nodes, id, d)| && Refined(r, t, Grow(r, nodes, id, d), id)
  {
    GrowEffect(r, nodes, id, d);
    if d.split {
      GrownHere(r, t, nodes, id, d);
    }
  }

  /** A leaf split by its visit has been given its sub-cells. */
  lemma GrownHere(r: Refiner, t: seq<Node>, nodes: seq<Node>, id: nat, d: Decision)
    requires |t| <= |nodes| && id < |t| && IsLeaf(t, id) && nodes[id] == t[id] && d.split
    ensures Grown(r, t, Grow(r, nodes, id, d), id)
  {
    var node := nodes[id];
    var marked := if !node.data.checked && !r.consolidated then SetChecked(nodes, id, true) else nodes;
    assert |marked| == |nodes| && marked[id].children == [];
    var ls := r.labels(node.data.number);
    var u := AddChildren(marked, id, ls);
    assert u == Grow(r, nodes, id, d);
    forall k | 0 <= k < |ls|
      ensures |t| <= u[id].children[k] < |u| && u[u[id].children[k]] == Node(NodeData(false, ls[k]), Some(id), [])
    {
      assert u[id].children[k] == |nodes| + k;
    }
  }

  /** A leaf refined earlier stays refined when another leaf is updated. */
  lemma RefinedFrame(r: Refiner, t: seq<Node>, nodes: seq<Node>, u: seq<Node>, id: nat, i: nat)
    requires |t| <= |nodes| <= |u| && id < |t| && i < |t| && i != id
    requires forall j :: 0 <= j < |nodes| && j != id ==> u[j] == nodes[j]
    requires LeafOutcome(r, t, i).Ok? && Refined(r, t, nodes, i)
    ensures Refined(r, t, u, i)
  {
    assert u[i] == nodes[i];
    if LeafOutcome(r, t, i).value.split {
      var ls := r.labels(t[i].data.number);
      forall k | 0 <= k < |ls|
        ensures |t| <= u[i].children[k] < |u| && u[u[i].children[k]] == Node(NodeData(false, ls[k]), Some(i), [])
      {
        assert u[u[i].children[k]] == nodes[nodes[i].children[k]];
      }
    }
  }

  lemma NewLeavesStep(r: Refiner, t: seq<Node>, nodes: seq<Node>, id: nat, d: Decision)
    requires WellFormed(nodes) && SameSpine(t, nodes) && NewLeaves(r, t, nodes)
    requires id < |t| && IsLeaf(t, id) && nodes[id] == t[id] && LeafOutcome(r, t, id) == Ok(d)
    ensures var u := Grow(r, nodes, id, d);
      WellFormed(u) && SameSpine(t, u) && NewLeaves(r, t, u) && (|u| == |nodes| <==> !d.split || |r.labels(nodes[id].data.number)| == 0)
  {
    GrowEffect(r, nodes, id, d);
    var u := Grow(r, nodes, id, d);
    forall j | |t| <= j < |u|
      ensures u[j].children == [] && !u[j].data.checked && u[j].parent.Some? && u[j].parent.value < |t|
      ensures SplitsAt(r, t, u[j].parent.value) && u[j].data.number in r.labels(t[u[j].parent.value].data.number)
    {
      if j >= |nodes| {
        assert d.split;
        var ls := r.labels(nodes[id].data.number);
        var k := j - |nodes|;
        assert 0 <= k < |ls| && u[|nodes| + k] == Node(NodeData(false, ls[k]), Some(id), []);
        assert SplitsAt(r, t, id);
      } else {
        assert u[j] == nodes[j];
      }
    }
  }

  lemma ChangedStep(r: Refiner, t: seq<Node>, visited: seq<nat>, changed: bool, id: nat, d: Decision)
    requires id < |t| && IsLeaf(t, id) && LeafOutcome(r, t, id) == Ok(d)
    requires ChangedIff(r, t, visited, changed)
    ensures ChangedIff(r, t, visited + [id], changed || d.split)
  {
    assert SplitsAt(r, t, id) == d.split;
  }

  /** The first n visits fail exactly when some leaf among them fails, and
      otherwise leave the invariant. */
  lemma RunPrefixInv(r: Refiner, t: seq<Node>, order: seq<nat>, n: nat)
    requires WellFormed(t) && WalkOrder(t, order) && n <= |order|
    ensures RunPrefix(r, order, n, PassState(t, 0.0, false)).Ok? <==> forall k :: 0 <= k < n ==> LeafOk(r, t, order[k])
    ensures RunPrefix(r, order, n, PassState(t, 0.0, false)).Ok? ==>
      PassInv(r, t, order, n, RunPrefix(r, order, n, PassState(t, 0.0, false)).value)
  {
    RunPrefixKeepsInv(r, t, order, n);
    RunPrefixOk(r, t, order, n);
  }

  /** A walk prefix that succeeds leaves the invariant. */
  lemma {:induction false} RunPrefixKeepsInv(r: Refiner, t: seq<Node>, order: seq<nat>, n: nat)
    requires WellFormed(t) && WalkOrder(t, order) && n <= |order|
    ensures RunPrefix(r, order, n, PassState(t, 0.0, false)).Ok? ==>
      PassInv(r, t, order, n, RunPrefix(r, order, n, PassState(t, 0.0, false)).value)
  {
    if n == 0 {
      PassInvStart(r, t, order);
    } else {
      RunPrefixKeepsInv(r, t, order, n - 1);
      RunPrefixStep(r, t, order, n);
    }
  }

  /** One more visit keeps the invariant of the prefix before it. */
  lemma RunPrefixStep(r: Refiner, t: seq<Node>, order: seq<nat>, n: nat)
    requires WellFormed(t) && WalkOrder(t, order) && 0 < n <= |order|
    requires RunPrefix(r, order, n - 1, PassState(t, 0.0, false)).Ok? ==>
      PassInv(r, t, order, n - 1, RunPrefix(r, order, n - 1, PassState(t, 0.0, false)).value)
    ensures RunPrefix(r, order, n, PassState(t, 0.0, false)).Ok? ==>
      PassInv(r, t, order, n, RunPrefix(r, order, n, PassState(t, 0.0, false)).value)
  {
    var prev := RunPrefix(r, order, n - 1, PassState(t, 0.0, false));
    if prev.Ok? {
      var next := Visit(r, prev.value, order[n - 1]);
      assert RunPrefix(r, order, n, PassState(t, 0.0, false)) == next;
      if IsLeaf(t, order[n - 1]) {
        VisitLeaf(r, t, order, n - 1, prev.value);
      } else {
        VisitInner(r, t, order, n - 1, prev.value);
      }
    }
  }

  /** A walk prefix fails exactly when some leaf among its nodes fails. */
  lemma {:induction false} RunPrefixOk(r: Refiner, t: seq<Node>, order: seq<nat>, n: nat)
    requires WellFormed(t) && WalkOrder(t, order) && n <= |order|
    ensures RunPrefix(r, order, n, PassState(t, 0.0, false)).Ok? <==> forall k :: 0 <= k < n ==> LeafOk(r, t, order[k])
  {
    if n > 0 {
      var m := n - 1;
      RunPrefixOk(r, t, order, m);
      RunPrefixKeepsInv(r, t, order, m);
      var prev := RunPrefix(r, order, m, PassState(t, 0.0, false));
      if prev.Ok? {
        if IsLeaf(t, order[m]) {
          VisitLeaf(r, t, order, m, prev.value);
        } else {
          VisitInner(r, t, order, m, prev.value);
        }
      } else {
        var k :| 0 <= k < m && !LeafOk(r, t, order[k]);
      }
    }
  }

  // ---------------------------------------------------------------------------
  // What a pass does, as a whole

  /** A pass fails exactly when the decision for some leaf fails; otherwise
      every inner node is kept, every leaf is refined as decided, the new
      nodes are unchecked leaves below old ones, `changed` says whether some
      leaf was split, and the total is the sum of the leaf values in walk
      order. */
  lemma PassEffect(r: Refiner, t: seq<Node>)
    requires WellFormed(t)
    ensures Pass(r, t).Ok? <==> forall i :: 0 <= i < |t| && IsLeaf(t, i) ==> LeafOutcome(r, t, i).Ok?
    ensures Pass(r, t).Ok? ==>
      var st := Pass(r, t).value;
      (forall i :: 0 <= i < |t| && !IsLeaf(t, i) ==> st.nodes[i] == t[i]) &&
      (forall i :: 0 <= i < |t| && IsLeaf(t, i) ==> Refined(r, t, st.nodes, i)) &&
      NewLeaves(r, t, st.nodes) &&
      (st.changed <==> exists i :: 0 <= i < |t| && SplitsAt(r, t, i)) &&
      (!st.changed ==> |st.nodes| == |t|) &&
      st.acc == LeafSum(r, t, PostOrder(t, 0), |PostOrder(t, 0)|)
  {
    Traversal(t);
    PostOrderWalk(t);
    var order := PostOrder(t, 0);
    RunPrefixInv(r, t, order, |order|);
    assert order[..|order|] == order;
    if forall i :: 0 <= i < |t| && IsLeaf(t, i) ==> LeafOutcome(r, t, i).Ok? {
      assert forall k :: 0 <= k < |order| ==> LeafOk(r, t, order[k]);
    } else {
      var i :| 0 <= i < |t| && IsLeaf(t, i) && !LeafOutcome(r, t, i).Ok?;
      assert i in order;
      var k :| 0 <= k < |order| && order[k] == i;
      assert !LeafOk(r, t, order[k]);
    }
  }

  /** The part of `PassEffect` about labels: old nodes keep theirs, and
      every appended node carries a sub-cell label of its parent's. */
  lemma PassNewLeaves(r: Refiner, t: seq<Node>)
    requires WellFormed(t) && Pass(r, t).Ok?
    ensures SameSpine(t, Pass(r, t).value.nodes) && NewLeaves(r, t, Pass(r, t).value.nodes)
  {
    PassEffect(r, t);
  }

  /** A consolidated integrator only reads its cache: a pass that succeeds
      returns the cache as it was and reports no change. */
  lemma ConsolidatedPassKeepsCache(r: Refiner, t: seq<Node>)
    requires WellFormed(t) && r.consolidated && Pass(r, t).Ok?
    ensures Pass(r, t).value.nodes == t && !Pass(r, t).value.changed
  {
    PassEffect(r, t);
    var st := Pass(r, t).value;
    assert !st.changed;
    forall i | 0 <= i < |t|
      ensures st.nodes[i] == t[i]
    {
      if IsLeaf(t, i) {
        assert Refined(r, t, st.nodes, i);
      }
    }
  }

  lemma {:induction false} LeafSumExt(r: Refiner, t: seq<Node>, u: seq<Node>, order: seq<nat>, n: nat)
    requires n <= |order|
    requires forall k :: 0 <= k < n ==> LeafValue(r, t, order[k]) == LeafValue(r, u, order[k])
    ensures LeafSum(r, t, order, n) == LeafSum(r, u, order, n)
  {
    if n > 0 {
      LeafSumExt(r, t, u, order, n - 1);
    }
  }

  /** After a pass that splits nothing, every leaf is decided without a split
      and with its plain estimate. */
  lemma SettledOutcome(r: Refiner, t: seq<Node>, i: nat)
    requires WellFormed(t) && Pass(r, t).Ok? && !Pass(r, t).value.changed
    requires i < |t| && IsLeaf(t, i)
    ensures var u := Pass(r, t).value.nodes;
      i < |u| && IsLeaf(u, i) && u[i].data.checked == (t[i].data.checked || !r.consolidated) &&
      r.coarse(Path(t, i)).Ok? &&
      LeafOutcome(r, u, i) == Ok(Decision(r.coarse(Path(t, i)).value, false)) &&
      LeafOutcome(r, t, i) == LeafOutcome(r, u, i)
  {
    PassEffect(r, t);
    var u := Pass(r, t).value.nodes;
    assert !SplitsAt(r, t, i);
    assert Refined(r, t, u, i);
    PathOfSameSpine(t, u, i);
  }

  /** The outer loop stops at a fixed point: after a pass that splits
      nothing, a further pass leaves the cache as it is, splits nothing and
      yields the same total. */
  lemma PassFixedPoint(r: Refiner, t: seq<Node>)
    requires WellFormed(t) && Pass(r, t).Ok? && !Pass(r, t).value.changed
    ensures var st := Pass(r, t).value; Pass(r, st.nodes) == Ok(PassState(st.nodes, st.acc, false))
  {
    PassEffect(r, t);
    var st := Pass(r, t).value;
    var u := st.nodes;
    assert |u| == |t|;
    forall i | 0 <= i < |t|
      ensures u[i].children == t[i].children
    {
      if IsLeaf(t, i) {
        assert !SplitsAt(r, t, i);
        assert Refined(r, t, u, i);
      }
    }
    assert SameChildren(t, u);
    PostOrderOfSameChildren(t, u, 0);
    forall i | 0 <= i < |u| && IsLeaf(u, i)
      ensures LeafOutcome(r, u, i).Ok? && !SplitsAt(r, u, i)
    {
      SettledOutcome(r, t, i);
    }
    forall i: nat
      ensures LeafValue(r, t, i) == LeafValue(r, u, i)
    {
      if i < |t| && IsLeaf(t, i) {
        SettledOutcome(r, t, i);
      }
    }
    var order := PostOrder(t, 0);
    LeafSumExt(r, t, u, order, |order|);
    PassEffect(r, u);
    var st2 := Pass(r, u).value;
    assert !st2.changed;
    forall i | 0 <= i < |u|
      ensures st2.nodes[i] == u[i]
    {
      if IsLeaf(u, i) {
        SettledOutcome(r, t, i);
        assert Refined(r, u, st2.nodes, i);
      }
    }
    assert st2.nodes == u;
  }

  // ---------------------------------------------------------------------------
  // The outer loop

  /** How the outer loop ends: with a total and the cache it settled on, or,
      when the pass budget runs out first, with the cache reached so far. */
  datatype Run = Done(value: real, nodes: seq<Node>) | Unfinished(nodes: seq<Node>)

  /** `while state_changed { ... }` with at most `fuel` passes. */
  function Converge(r: Refiner, t: seq<Node>, fuel: nat): Result<Run>
    requires WellFormed(t)
    decreases fuel
  {
    if fuel == 0 then Ok(Unfinished(t))
    else match Pass(r, t)
      case Err(e) => Err(e)
      case Ok(st) => if st.changed then Converge(r, st.nodes, fuel - 1) else Ok(Done(st.acc, st.nodes))
  }

  /** What the loop returns is stable: the cache it settles on is well
      formed, and one more pass over it changes nothing and reproduces the
      total. */
  lemma {:induction false} ConvergeFixedPoint(r: Refiner, t: seq<Node>, fuel: nat)
    requires WellFormed(t) && Converge(r, t, fuel).Ok? && Converge(r, t, fuel).value.Done?
    ensures var run := Converge(r, t, fuel).value;
      WellFormed(run.nodes) && Pass(r, run.nodes) == Ok(PassState(run.nodes, run.value, false))
    decreases fuel
  {
    var st := Pass(r, t).value;
    if st.changed {
      ConvergeFixedPoint(r, st.nodes, fuel - 1);
    } else {
      PassFixedPoint(r, t);
    }
  }

  /** A consolidated integrator makes exactly one pass and leaves its cache untouched. */
  lemma ConvergeConsolidated(r: Refiner, t: seq<Node>, fuel: nat)
    requires WellFormed(t) && r.consolidated && fuel > 0 && Pass(r, t).Ok?
    ensures Converge(r, t, fuel) == Ok(Done(Pass(r, t).value.acc, t))
  {
    ConsolidatedPassKeepsCache(r, t);
  }

  /** The cache only grows: every cache the loop passes through keeps the
      labels and parents of the one it started from. */
  lemma {:induction false} ConvergeExtends(r: Refiner, t: seq<Node>, fuel: nat)
    requires WellFormed(t) && Converge(r, t, fuel).Ok?
    ensures SameSpine(t, Converge(r, t, fuel).value.nodes)
    decreases fuel
  {
    if fuel > 0 {
      var st := Pass(r, t).value;
      if st.changed {
        ConvergeExtends(r, st.nodes, fuel - 1);
      }
    }
  }
}
