/** The tree of branches below a root: acyclic over every run, and built completely. */
module BranchTrees {
  import opened Prelude
  import opened Branches
  import opened BranchSteps

  datatype BranchTree = BranchTree(branch: BranchId, children: seq<BranchTree>)

  function TotalNodes(t: BranchTree): nat {
    1 + TotalNodesOf(t.children)
  }

  function TotalNodesOf(ts: seq<BranchTree>): nat {
    if ts == [] then 0 else TotalNodesOf(ts[..|ts| - 1]) + TotalNodes(ts[|ts| - 1])
  }

  /** All branches of the tree, with repetitions if there are any. */
  function Nodes(t: BranchTree): seq<BranchId> {
    [t.branch] + NodesOf(t.children)
  }

  function NodesOf(ts: seq<BranchTree>): seq<BranchId> {
    if ts == [] then [] else NodesOf(ts[..|ts| - 1]) + Nodes(ts[|ts| - 1])
  }

  lemma {:induction false} TotalNodesCounts(t: BranchTree)
    ensures TotalNodes(t) == |Nodes(t)|
  {
    TotalNodesOfCounts(t.children);
  }

  lemma {:induction false} TotalNodesOfCounts(ts: seq<BranchTree>)
    ensures TotalNodesOf(ts) == |NodesOf(ts)|
  {
    if ts != [] {
      TotalNodesOfCounts(ts[..|ts| - 1]);
      TotalNodesCounts(ts[|ts| - 1]);
    }
  }

  /** Every parent exists and is older than its children. */
  ghost predicate Aged(m: Manager) {
    && m.born.Keys == m.branches.Keys
    && forall b :: b in m.branches ==>
         && m.born[b] < |m.branches|
         && (m.branches[b].parent.Some? ==>
               m.branches[b].parent.value in m.branches && m.born[m.branches[b].parent.value] < m.born[b])
  }

  lemma StepAges(m: Manager, op: Op)
    requires Aged(m) && Legal(m, op)
    ensures Aged(Step(m, op))
  {
    if op.Create? {
      CreateAdds(m, op.source, op.id, op.sid, op.create);
    } else {
      var m' := Step(m, op);
      StepMoves(m, op);
      assert |m'.branches| == |m'.branches.Keys| == |m.branches.Keys| == |m.branches|;
    }
  }

  /** Over every run parents are older than their children, so no branch is its own
      ancestor. */
  lemma {:induction false} RunIsAged(m: Manager, ops: seq<Op>)
    requires Aged(m) && LegalRun(m, ops)
    ensures Aged(Run(m, ops))
    decreases |ops|
  {
    if ops != [] {
      StepAges(m, ops[0]);
      RunIsAged(Step(m, ops[0]), ops[1..]);
    }
  }

  /** `d` is `a` or lies below it. */
  ghost predicate Descends(m: Manager, d: BranchId, a: BranchId)
    requires Aged(m)
    decreases if d in m.born then m.born[d] + 1 else 0
  {
    && d in m.branches
    && (d == a || (m.branches[d].parent.Some? && Descends(m, m.branches[d].parent.value, a)))
  }

  ghost predicate IsChild(m: Manager, c: BranchId, p: BranchId) {
    c in m.branches && m.branches[c].parent == Some(p)
  }

  lemma {:induction false} NoYoungerAncestor(m: Manager, d: BranchId, a: BranchId)
    requires Aged(m) && Descends(m, d, a)
    ensures a in m.branches && m.born[a] <= m.born[d] && (m.born[a] == m.born[d] ==> a == d)
    decreases m.born[d]
  {
    if d != a {
      NoYoungerAncestor(m, m.branches[d].parent.value, a);
    }
  }

  /** The descendants of `a` are `a` and the descendants of its children. */
  lemma {:induction false} DescendsThroughChild(m: Manager, d: BranchId, a: BranchId)
    requires Aged(m) && a in m.branches
    ensures Descends(m, d, a) <==> d == a || exists c :: IsChild(m, c, a) && Descends(m, d, c)
    decreases if d in m.born then m.born[d] + 1 else 0
  {
    if d in m.branches && d != a && m.branches[d].parent.Some? {
      var p := m.branches[d].parent.value;
      DescendsThroughChild(m, p, a);
      if p == a {
        assert IsChild(m, d, a) && Descends(m, d, d);
      }
      if c :| IsChild(m, c, a) && Descends(m, p, c) {
        assert Descends(m, d, c);
      }
      if c :| IsChild(m, c, a) && Descends(m, d, c) {
        assert d == c || Descends(m, p, c);
      }
    }
  }

  /** Two ancestors of a branch lie on one line. */
  lemma {:induction false} AncestorsInLine(m: Manager, d: BranchId, a: BranchId, b: BranchId)
    requires Aged(m) && Descends(m, d, a) && Descends(m, d, b)
    ensures Descends(m, a, b) || Descends(m, b, a)
    decreases m.born[d]
  {
    if d != a && d != b {
      AncestorsInLine(m, m.branches[d].parent.value, a, b);
    }
  }

  lemma SiblingsShareNothing(m: Manager, p: BranchId, b: BranchId, c: BranchId, d: BranchId)
    requires Aged(m) && IsChild(m, b, p) && IsChild(m, c, p) && b != c
    ensures !(Descends(m, d, b) && Descends(m, d, c))
  {
    if Descends(m, d, b) && Descends(m, d, c) {
      AncestorsInLine(m, d, b, c);
      if Descends(m, b, c) {
        NoYoungerAncestor(m, p, c);
      } else {
        NoYoungerAncestor(m, p, b);
      }
      assert false;
    }
  }

  /** The tree of `id`: rooted there, each edge from a branch to one of its children, and
      every descendant exactly once. */
  ghost predicate IsTreeOf(m: Manager, t: BranchTree, id: BranchId)
    requires Aged(m)
  {
    t.branch == id && FollowsParents(m, t) && NoDup(Nodes(t)) && forall d :: d in Nodes(t) <==> Descends(m, d, id)
  }

  ghost predicate FollowsParents(m: Manager, t: BranchTree) {
    forall i :: 0 <= i < |t.children| ==> IsChild(m, t.children[i].branch, t.branch) && FollowsParents(m, t.children[i])
  }

  /** The trees of the first children of a branch, side by side. */
  ghost predicate IsForestOf(m: Manager, ts: seq<BranchTree>, kids: seq<BranchId>, n: nat)
    requires Aged(m) && n <= |kids|
  {
    && |ts| == n
    && (forall i :: 0 <= i < n ==> IsTreeOf(m, ts[i], kids[i]))
    && NoDup(NodesOf(ts))
    && forall d :: d in NodesOf(ts) <==> exists i :: 0 <= i < n && Descends(m, d, kids[i])
  }

  lemma ForestGrows(m: Manager, ts: seq<BranchTree>, kids: seq<BranchId>, t: BranchTree, p: BranchId)
    requires Aged(m) && NoDup(kids) && forall i :: 0 <= i < |kids| ==> IsChild(m, kids[i], p)
    requires |ts| < |kids| && IsForestOf(m, ts, kids, |ts|) && IsTreeOf(m, t, kids[|ts|])
    ensures IsForestOf(m, ts + [t], kids, |ts| + 1)
  {
    var n := |ts|;
    var ts' := ts + [t];
    assert ts'[..n] == ts;
    var a, b := NodesOf(ts), Nodes(t);
    assert NodesOf(ts') == a + b;
    forall x | x in a ensures x !in b {
      var i :| 0 <= i < n && Descends(m, x, kids[i]);
      SiblingsShareNothing(m, p, kids[i], kids[n], x);
    }
    NoDupConcat(a, b);
    forall d ensures d in NodesOf(ts') <==> exists i :: 0 <= i < n + 1 && Descends(m, d, kids[i]) {
      assert d in NodesOf(ts') <==> d in a || d in b;
      if i :| 0 <= i < n && Descends(m, d, kids[i]) { assert 0 <= i < n + 1; }
    }
    forall i | 0 <= i < n + 1 ensures IsTreeOf(m, ts'[i], kids[i]) {
      assert ts'[i] == if i < n then ts[i] else t;
    }
  }

  lemma ForestIsTree(m: Manager, ts: seq<BranchTree>, kids: seq<BranchId>, p: BranchId)
    requires Aged(m) && p in m.branches && NoDup(kids) && forall c :: c in kids <==> IsChild(m, c, p)
    requires IsForestOf(m, ts, kids, |kids|)
    ensures IsTreeOf(m, BranchTree(p, ts), p)
  {
    var t := BranchTree(p, ts);
    assert Nodes(t) == [p] + NodesOf(ts);
    forall d ensures d in NodesOf(ts) <==> exists c :: IsChild(m, c, p) && Descends(m, d, c) {
      if c :| IsChild(m, c, p) && Descends(m, d, c) {
        assert c in kids;
      }
    }
    if p in NodesOf(ts) {
      var c :| IsChild(m, c, p) && Descends(m, p, c);
      NoYoungerAncestor(m, p, c);
      assert false;
    }
    forall d { DescendsThroughChild(m, d, p); }
    forall i | 0 <= i < |t.children| ensures IsChild(m, t.children[i].branch, p) && FollowsParents(m, t.children[i]) {
      assert IsTreeOf(m, ts[i], kids[i]) && kids[i] in kids;
    }
  }

  /** The number of nodes is one more than the number of proper descendants. */
  lemma TotalNodesIsDescendants(m: Manager, t: BranchTree, id: BranchId, below: set<BranchId>)
    requires Aged(m) && IsTreeOf(m, t, id)
    requires forall d :: d in below <==> d != id && Descends(m, d, id)
    ensures TotalNodes(t) == |below| + 1
  {
    TotalNodesCounts(t);
    DistinctCount(Nodes(t));
    assert id in Nodes(t);
    assert Elements(Nodes(t)) == below + {id};
  }
}
