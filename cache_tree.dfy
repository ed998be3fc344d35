/** The cache of the hierarchic integrators: an arena of nodes, each holding
    a `checked` flag and a subdivision label, linked to its parent and to
    its ordered children. The root sits at index 0, and nodes are only ever
    appended at the end, so every child has a larger index than its parent. */
module CacheTree {
  import opened Wrappers

  /** `NodeData`: whether the node's estimate has been compared with its
      refinement, and which sub-cell of its parent it is (0 for the root). */
  datatype NodeData = NodeData(checked: bool, number: nat)

  datatype Node = Node(data: NodeData, parent: Option<nat>, children: seq<nat>)

  /** Node i (not the root) has an earlier parent that lists it as a child. */
  ghost predicate ParentOk(t: seq<Node>, i: nat)
    requires i < |t|
  {
    t[i].parent.Some? && t[i].parent.value < i && i in t[t[i].parent.value].children
  }

  /** The children of node i are later nodes that name i as their parent,
      listed in increasing order. */
  ghost predicate ChildrenOk(t: seq<Node>, i: nat)
    requires i < |t|
  {
    (forall k :: 0 <= k < |t[i].children| ==>
       i < t[i].children[k] < |t| && t[t[i].children[k]].parent == Some(i)) &&
    (forall k, l :: 0 <= k < l < |t[i].children| ==> t[i].children[k] < t[i].children[l])
  }

  ghost predicate WellFormed(t: seq<Node>)
  {
    |t| > 0 && t[0].parent.None? &&
    (forall i :: 0 < i < |t| ==> ParentOk(t, i)) &&
    (forall i :: 0 <= i < |t| ==> ChildrenOk(t, i))
  }

  /** A one-node tree: the unchecked root with label 0. */
  function Fresh(): (t: seq<Node>)
    ensures WellFormed(t) && |t| == 1
    ensures t[0] == Node(NodeData(false, 0), None, [])
  {
    [Node(NodeData(false, 0), None, [])]
  }

  predicate IsLeaf(t: seq<Node>, i: nat)
    requires i < |t|
  {
    |t[i].children| == 0
  }

  /** The labels from node i up to the root, node i first. */
  function Path(t: seq<Node>, i: nat): (p: seq<nat>)
    requires i < |t|
    ensures |p| > 0 && p[0] == t[i].data.number
    decreases i
  {
    [t[i].data.number] + (if t[i].parent.Some? && t[i].parent.value < i then Path(t, t[i].parent.value) else [])
  }

  /** The root's path is its own label alone, and every other path ends at the root. */
  lemma {:induction false} PathEndsAtRoot(t: seq<Node>, i: nat)
    requires WellFormed(t) && i < |t|
    ensures Path(t, i)[|Path(t, i)| - 1] == t[0].data.number
    ensures i == 0 <==> |Path(t, i)| == 1
    decreases i
  {
    if i > 0 {
      assert ParentOk(t, i);
      PathEndsAtRoot(t, t[i].parent.value);
    }
  }

  /** The walk of the leaf loop of both integrators: the labels from node
      id up to the root, following parent links. */
  method Ancestors(t: seq<Node>, id: nat) returns (path: seq<nat>)
    requires WellFormed(t) && id < |t|
    ensures path == Path(t, id)
  {
    path := [t[id].data.number];
    var par := id;
    while t[par].parent.Some?
      invariant par < |t|
      invariant path + Path(t, par)[1..] == Path(t, id)
      decreases par
    {
      assert ParentOk(t, par);
      var p := t[par].parent.value;
      path := path + [t[p].data.number];
      par := p;
    }
  }

  // ---------------------------------------------------------------------------
  // Updates

  function SetChecked(t: seq<Node>, i: nat, b: bool): (u: seq<Node>)
    requires i < |t|
    ensures |u| == |t| && u[i].data == NodeData(b, t[i].data.number)
    ensures u[i].parent == t[i].parent && u[i].children == t[i].children
    ensures forall j :: 0 <= j < |t| && j != i ==> u[j] == t[j]
  {
    t[i := t[i].(data := t[i].data.(checked := b))]
  }

  /** indextree's `append` of a fresh node: the new node goes to the end of
      the arena and to the end of i's children. */
  function AppendChild(t: seq<Node>, i: nat, number: nat): (u: seq<Node>)
    requires i < |t|
    ensures |u| == |t| + 1
    ensures u[|t|] == Node(NodeData(false, number), Some(i), [])
    ensures u[i].data == t[i].data && u[i].parent == t[i].parent && u[i].children == t[i].children + [|t|]
    ensures forall j :: 0 <= j < |t| && j != i ==> u[j] == t[j]
  {
    t[i := t[i].(children := t[i].children + [|t|])] + [Node(NodeData(false, number), Some(i), [])]
  }

  /** Indices start, start + 1, ..., start + n - 1. */
  function Range(start: nat, n: nat): (r: seq<nat>)
    ensures |r| == n && forall k :: 0 <= k < n ==> r[k] == start + k
  {
    seq(n, k requires 0 <= k < n => start + k)
  }

  lemma RangeMembers(start: nat, n: nat, x: nat)
    ensures x in Range(start, n) <==> start <= x < start + n
  {
    if start <= x < start + n {
      assert Range(start, n)[x - start] == x;
    }
  }

  /** Appends one child per label, in order. */
  function AddChildren(t: seq<Node>, i: nat, labels: seq<nat>): (u: seq<Node>)
    requires i < |t|
    ensures |u| == |t| + |labels|
    ensures u[i].data == t[i].data && u[i].parent == t[i].parent
    ensures u[i].children == t[i].children + Range(|t|, |labels|)
    ensures forall k :: 0 <= k < |labels| ==> u[|t| + k] == Node(NodeData(false, labels[k]), Some(i), [])
    ensures forall j :: 0 <= j < |t| && j != i ==> u[j] == t[j]
    decreases |labels|
  {
    if |labels| == 0 then
      assert t[i].children + Range(|t|, 0) == t[i].children;
      t
    else
      var u := AddChildren(AppendChild(t, i, labels[0]), i, labels[1..]);
      assert t[i].children + [|t|] + Range(|t| + 1, |labels| - 1) == t[i].children + Range(|t|, |labels|);
      u
  }

  lemma SetCheckedWellFormed(t: seq<Node>, i: nat, b: bool)
    requires WellFormed(t) && i < |t|
    ensures WellFormed(SetChecked(t, i, b))
  {
    var u := SetChecked(t, i, b);
    assert forall j :: 0 < j < |u| ==> ParentOk(t, j) ==> ParentOk(u, j);
    assert forall j :: 0 <= j < |u| ==> ChildrenOk(t, j) ==> ChildrenOk(u, j);
  }

  lemma AppendChildWellFormed(t: seq<Node>, i: nat, number: nat)
    requires WellFormed(t) && i < |t|
    ensures WellFormed(AppendChild(t, i, number))
  {
    var u := AppendChild(t, i, number);
    forall j | 0 < j < |u|
      ensures ParentOk(u, j)
    {
      if j < |t| {
        assert ParentOk(t, j);
        var p := t[j].parent.value;
        if p == i {
          assert j in u[p].children;
        } else {
          assert u[p] == t[p];
        }
      } else {
        assert |t| in u[i].children;
      }
    }
    forall j | 0 <= j < |u|
      ensures ChildrenOk(u, j)
    {
      if j < |t| {
        assert ChildrenOk(t, j);
      }
    }
  }

  lemma {:induction false} AddChildrenWellFormed(t: seq<Node>, i: nat, labels: seq<nat>)
    requires WellFormed(t) && i < |t|
    ensures WellFormed(AddChildren(t, i, labels))
    decreases |labels|
  {
    if |labels| > 0 {
      AppendChildWellFormed(t, i, labels[0]);
      AddChildrenWellFormed(AppendChild(t, i, labels[0]), i, labels[1..]);
    }
  }

  // ---------------------------------------------------------------------------
  // Spines: what paths depend on

  /** u keeps the labels and parents of the first |t| nodes of t. */
  ghost predicate SameSpine(t: seq<Node>, u: seq<Node>)
  {
    |t| <= |u| &&
    forall i :: 0 <= i < |t| ==> u[i].data.number == t[i].data.number && u[i].parent == t[i].parent
  }

  lemma {:induction false} PathOfSameSpine(t: seq<Node>, u: seq<Node>, i: nat)
    requires SameSpine(t, u) && i < |t|
    ensures Path(u, i) == Path(t, i)
    decreases i
  {
    if t[i].parent.Some? && t[i].parent.value < i {
      PathOfSameSpine(t, u, t[i].parent.value);
    }
  }

  // ---------------------------------------------------------------------------
  // Depth-first traversal

  /** The nodes of the subtree at i in the order in which the depth-first
      walk leaves them: each child's subtree in turn, then i itself. */
  function PostOrder(t: seq<Node>, i: nat): (r: seq<nat>)
    requires WellFormed(t) && i < |t|
    decreases |t| - i, 1
  {
    assert ChildrenOk(t, i);
    PostOrderList(t, t[i].children, i) + [i]
  }

  /** The post-orders of the subtrees at cs, one after the other. */
  function PostOrderList(t: seq<Node>, cs: seq<nat>, lo: nat): (r: seq<nat>)
    requires WellFormed(t) && forall k :: 0 <= k < |cs| ==> lo < cs[k] < |t|
    decreases |t| - lo, 0, |cs|
  {
    if |cs| == 0 then [] else PostOrder(t, cs[0]) + PostOrderList(t, cs[1..], lo)
  }

  /** j is i or lies below i. */
  ghost predicate Below(t: seq<Node>, i: nat, j: nat)
    requires j < |t|
    decreases j
  {
    j == i || (j > i && t[j].parent.Some? && t[j].parent.value < j && Below(t, i, t[j].parent.value))
  }

  lemma {:induction false} PostOrderBelow(t: seq<Node>, i: nat)
    requires WellFormed(t) && i < |t|
    ensures forall x :: x in PostOrder(t, i) ==> x < |t| && Below(t, i, x)
    decreases |t| - i, 1
  {
    assert ChildrenOk(t, i);
    PostOrderListBelow(t, t[i].children, i);
  }

  lemma {:induction false} PostOrderListBelow(t: seq<Node>, cs: seq<nat>, lo: nat)
    requires WellFormed(t) && forall k :: 0 <= k < |cs| ==> lo < cs[k] < |t|
    requires forall k :: 0 <= k < |cs| ==> t[cs[k]].parent == Some(lo)
    ensures forall x :: x in PostOrderList(t, cs, lo) ==> x < |t| && Below(t, lo, x)
    decreases |t| - lo, 0, |cs|
  {
    if |cs| > 0 {
      PostOrderBelow(t, cs[0]);
      PostOrderListBelow(t, cs[1..], lo);
      forall x | x in PostOrder(t, cs[0])
        ensures Below(t, lo, x)
      {
        BelowTrans(t, lo, cs[0], x);
      }
    }
  }

  lemma {:induction false} BelowTrans(t: seq<Node>, a: nat, b: nat, x: nat)
    requires b < |t| && x < |t| && Below(t, b, x)
    requires b > a && t[b].parent.Some? && t[b].parent.value == a
    ensures Below(t, a, x)
    decreases x
  {
    if x != b {
      BelowTrans(t, a, b, t[x].parent.value);
    }
  }

  /** Two nodes above the same node lie on one line. */
  lemma {:induction false} BelowLinear(t: seq<Node>, a: nat, b: nat, x: nat)
    requires x < |t| && Below(t, a, x) && Below(t, b, x) && a <= b
    ensures b < |t| && Below(t, a, b)
    decreases x
  {
    if x != b {
      BelowLinear(t, a, b, t[x].parent.value);
    }
  }

  /** The subtrees of two different children of the same node share no node. */
  lemma SiblingsDisjoint(t: seq<Node>, p: nat, c: nat, d: nat, x: nat)
    requires WellFormed(t) && c < |t| && d < |t| && x < |t| && c < d
    requires t[c].parent == Some(p) && t[d].parent == Some(p)
    ensures !(Below(t, c, x) && Below(t, d, x))
  {
    NotBelowSibling(t, p, c, d);
    if Below(t, c, x) && Below(t, d, x) {
      BelowLinear(t, c, d, x);
      assert false;
    }
  }

  lemma NotBelowSibling(t: seq<Node>, p: nat, c: nat, d: nat)
    requires WellFormed(t) && c < |t| && d < |t| && c < d
    requires t[c].parent == Some(p) && t[d].parent == Some(p)
    ensures !Below(t, c, d)
  {
    assert ParentOk(t, c);
  }

  ghost predicate Distinct(s: seq<nat>)
  {
    forall k, l :: 0 <= k < l < |s| ==> s[k] != s[l]
  }

  lemma {:induction false} PostOrderDistinct(t: seq<Node>, i: nat)
    requires WellFormed(t) && i < |t|
    ensures Distinct(PostOrder(t, i))
    decreases |t| - i, 1
  {
    assert ChildrenOk(t, i);
    var cs := t[i].children;
    PostOrderListDistinct(t, cs, i);
    PostOrderListBelow(t, cs, i);
    forall x | x in PostOrderList(t, cs, i)
      ensures x != i
    {
      ChildBelowIsLater(t, i, x, cs);
    }
    DistinctConcat(PostOrderList(t, cs, i), [i]);
  }

  /** Nodes strictly inside the subtrees of i's children come after i. */
  lemma ChildBelowIsLater(t: seq<Node>, i: nat, x: nat, cs: seq<nat>)
    requires WellFormed(t) && i < |t| && cs == t[i].children
    requires forall k :: 0 <= k < |cs| ==> i < cs[k] < |t|
    requires x in PostOrderList(t, cs, i)
    ensures x != i
  {
    assert ChildrenOk(t, i);
    PostOrderListMembers(t, cs, i, x);
  }

  /** Every member of the list's post-order lies below one of the listed children. */
  lemma {:induction false} PostOrderListMembers(t: seq<Node>, cs: seq<nat>, lo: nat, x: nat)
    requires WellFormed(t) && forall k :: 0 <= k < |cs| ==> lo < cs[k] < |t|
    requires x in PostOrderList(t, cs, lo)
    ensures x < |t| && exists k :: 0 <= k < |cs| && Below(t, cs[k], x) && x >= cs[k]
    decreases |cs|
  {
    if x in PostOrder(t, cs[0]) {
      PostOrderBelow(t, cs[0]);
      BelowIsLater(t, cs[0], x);
    } else {
      PostOrderListMembers(t, cs[1..], lo, x);
      var k :| 0 <= k < |cs| - 1 && Below(t, cs[1..][k], x) && x >= cs[1..][k];
      assert Below(t, cs[k + 1], x);
    }
  }

  lemma BelowIsLater(t: seq<Node>, a: nat, x: nat)
    requires x < |t| && Below(t, a, x)
    ensures x >= a
  {
  }

  lemma {:induction false} PostOrderListDistinct(t: seq<Node>, cs: seq<nat>, lo: nat)
    requires WellFormed(t) && forall k :: 0 <= k < |cs| ==> lo < cs[k] < |t|
    requires forall k :: 0 <= k < |cs| ==> t[cs[k]].parent == Some(lo)
    requires forall k, l :: 0 <= k < l < |cs| ==> cs[k] < cs[l]
    ensures Distinct(PostOrderList(t, cs, lo))
    decreases |t| - lo, 0, |cs|
  {
    if |cs| > 0 {
      PostOrderDistinct(t, cs[0]);
      PostOrderListDistinct(t, cs[1..], lo);
      var a := PostOrder(t, cs[0]);
      var b := PostOrderList(t, cs[1..], lo);
      PostOrderBelow(t, cs[0]);
      forall x | x in a && x in b
        ensures false
      {
        PostOrderListMembers(t, cs[1..], lo, x);
        var k :| 0 <= k < |cs| - 1 && Below(t, cs[1..][k], x) && x >= cs[1..][k];
        SiblingsDisjoint(t, lo, cs[0], cs[k + 1], x);
      }
      DistinctConcat(a, b);
    }
  }

  lemma DistinctConcat(a: seq<nat>, b: seq<nat>)
    requires Distinct(a) && Distinct(b) && forall x :: x in a ==> x !in b
    ensures Distinct(a + b)
  {
    forall k, l | 0 <= k < l < |a + b|
      ensures (a + b)[k] != (a + b)[l]
    {
      if k < |a| && l >= |a| {
        assert (a + b)[k] in a && (a + b)[l] == b[l - |a|];
      }
    }
  }

  /** Every node of the subtree at i is visited by the walk from i. */
  lemma {:induction false} PostOrderCovers(t: seq<Node>, i: nat, x: nat)
    requires WellFormed(t) && i < |t| && x < |t| && Below(t, i, x)
    ensures x in PostOrder(t, i)
    decreases x
  {
    if x != i {
      var p := t[x].parent.value;
      PostOrderCovers(t, i, p);
      assert ParentOk(t, x);
      ChildInPostOrder(t, p, x);
      PostOrderNested(t, i, p);
    }
  }

  /** A child's subtree is part of its parent's walk. */
  lemma ChildInPostOrder(t: seq<Node>, p: nat, x: nat)
    requires WellFormed(t) && p < |t| && x in t[p].children
    ensures x < |t| && x in PostOrder(t, p)
  {
    assert ChildrenOk(t, p);
    var k :| 0 <= k < |t[p].children| && t[p].children[k] == x;
    InListPostOrder(t, t[p].children, p, k);
  }

  lemma {:induction false} InListPostOrder(t: seq<Node>, cs: seq<nat>, lo: nat, k: nat)
    requires WellFormed(t) && forall k :: 0 <= k < |cs| ==> lo < cs[k] < |t|
    requires k < |cs|
    ensures forall x :: x in PostOrder(t, cs[k]) ==> x in PostOrderList(t, cs, lo)
    decreases |cs|
  {
    if k > 0 {
      InListPostOrder(t, cs[1..], lo, k - 1);
    }
  }

  /** The walk from a node inside the subtree at i is part of the walk from i. */
  lemma {:induction false} PostOrderNested(t: seq<Node>, i: nat, p: nat)
    requires WellFormed(t) && i < |t| && p < |t| && p in PostOrder(t, i)
    ensures forall x :: x in PostOrder(t, p) ==> x in PostOrder(t, i)
    decreases |t| - i, 1
  {
    if p != i {
      assert ChildrenOk(t, i);
      PostOrderNestedList(t, t[i].children, i, p);
    }
  }

  lemma {:induction false} PostOrderNestedList(t: seq<Node>, cs: seq<nat>, lo: nat, p: nat)
    requires WellFormed(t) && forall k :: 0 <= k < |cs| ==> lo < cs[k] < |t|
    requires p < |t| && p in PostOrderList(t, cs, lo)
    ensures forall x :: x in PostOrder(t, p) ==> x in PostOrderList(t, cs, lo)
    decreases |t| - lo, 0, |cs|
  {
    if p in PostOrder(t, cs[0]) {
      PostOrderNested(t, cs[0], p);
    } else {
      PostOrderNestedList(t, cs[1..], lo, p);
    }
  }

  /** Every node lies below the root. */
  lemma {:induction false} BelowRoot(t: seq<Node>, x: nat)
    requires WellFormed(t) && x < |t|
    ensures Below(t, 0, x)
    decreases x
  {
    if x > 0 {
      assert ParentOk(t, x);
      BelowRoot(t, t[x].parent.value);
    }
  }

  /** The walk from the root visits every node of the arena exactly once. */
  lemma Traversal(t: seq<Node>)
    requires WellFormed(t)
    ensures Distinct(PostOrder(t, 0))
    ensures forall x: nat :: x in PostOrder(t, 0) <==> x < |t|
  {
    PostOrderDistinct(t, 0);
    PostOrderBelow(t, 0);
    forall x | x in PostOrder(t, 0)
      ensures x < |t|
    {
    }
    forall x: nat | x < |t|
      ensures x in PostOrder(t, 0)
    {
      BelowRoot(t, x);
      PostOrderCovers(t, 0, x);
    }
  }
  // ---------------------------------------------------------------------------
  // What the walk depends on

  /** t and u have the same nodes with the same child lists. */
  ghost predicate SameChildren(t: seq<Node>, u: seq<Node>)
  {
    |t| == |u| && forall i :: 0 <= i < |t| ==> t[i].children == u[i].children
  }

  /** The walk only looks at child lists: flags and labels do not change it. */
  lemma {:induction false} PostOrderOfSameChildren(t: seq<Node>, u: seq<Node>, i: nat)
    requires WellFormed(t) && WellFormed(u) && SameChildren(t, u) && i < |t|
    ensures PostOrder(t, i) == PostOrder(u, i)
    decreases |t| - i, 1
  {
    assert ChildrenOk(t, i);
    PostOrderListOfSameChildren(t, u, t[i].children, i);
  }

  lemma {:induction false} PostOrderListOfSameChildren(t: seq<Node>, u: seq<Node>, cs: seq<nat>, lo: nat)
    requires WellFormed(t) && WellFormed(u) && SameChildren(t, u)
    requires forall k :: 0 <= k < |cs| ==> lo < cs[k] < |t|
    ensures PostOrderList(t, cs, lo) == PostOrderList(u, cs, lo)
    decreases |t| - lo, 0, |cs|
  {
    if |cs| > 0 {
      PostOrderOfSameChildren(t, u, cs[0]);
      PostOrderListOfSameChildren(t, u, cs[1..], lo);
    }
  }

  /** Appending one more label appends one more child. */
  lemma {:induction false} AddChildrenSnoc(t: seq<Node>, i: nat, labels: seq<nat>, number: nat)
    requires i < |t|
    ensures AddChildren(t, i, labels + [number]) == AppendChild(AddChildren(t, i, labels), i, number)
    decreases |labels|
  {
    if |labels| == 0 {
      assert labels + [number] == [number];
      assert AddChildren(t, i, [number]) == AddChildren(AppendChild(t, i, number), i, []);
    } else {
      assert (labels + [number])[1..] == labels[1..] + [number];
      AddChildrenSnoc(AppendChild(t, i, labels[0]), i, labels[1..], number);
    }
  }

  /** Appending the child for label n of ls extends the children for the
      labels before it. */
  lemma AddChildrenPrefix(t: seq<Node>, i: nat, ls: seq<nat>, n: nat)
    requires i < |t| && n < |ls|
    ensures AddChildren(t, i, ls[..n + 1]) == AppendChild(AddChildren(t, i, ls[..n]), i, ls[n])
  {
    assert ls[..n + 1] == ls[..n] + [ls[n]];
    AddChildrenSnoc(t, i, ls[..n], ls[n]);
  }

  // ---------------------------------------------------------------------------
  // Resetting the flags

  /** The arena with the `checked` flag of every leaf cleared. */
  function UncheckLeaves(t: seq<Node>): (u: seq<Node>)
    ensures |u| == |t|
    ensures forall i :: 0 <= i < |t| ==> u[i].parent == t[i].parent && u[i].children == t[i].children
    ensures forall i :: 0 <= i < |t| ==> u[i].data.number == t[i].data.number
    ensures forall i :: 0 <= i < |t| ==> u[i].data.checked == (t[i].data.checked && !IsLeaf(t, i))
  {
    seq(|t|, i requires 0 <= i < |t| => if IsLeaf(t, i) then t[i].(data := t[i].data.(checked := false)) else t[i])
  }

  /** Clearing the flags keeps the tree, its walk and its leaves. */
  lemma UncheckLeavesShape(t: seq<Node>)
    requires WellFormed(t)
    ensures WellFormed(UncheckLeaves(t)) && SameSpine(t, UncheckLeaves(t)) && SameChildren(t, UncheckLeaves(t))
    ensures PostOrder(UncheckLeaves(t), 0) == PostOrder(t, 0)
  {
    var u := UncheckLeaves(t);
    assert forall j :: 0 < j < |u| ==> ParentOk(t, j) ==> ParentOk(u, j);
    assert forall j :: 0 <= j < |u| ==> ChildrenOk(t, j) ==> ChildrenOk(u, j);
    PostOrderOfSameChildren(t, u, 0);
  }
}
