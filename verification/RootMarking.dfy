/** Marking inactive root branches in place (graph.py, `_mark_inactive_root_branches`). `depth`
    bounds the recursion, as the interpreter does; `ok` is false when the bound was reached. */
module RootMarking {
  import opened Templates
  import opened Graphs
  import opened Traversal
  import opened GraphInit
  import opened RootBranches

  class MarkedGraph {
    const g: Graph
    var node: map<NodeId, Mark>
    var edge: Marks

    function View(): State
      reads this
    {
      State(node, edge, [], {})
    }

    /** A graph as built: no mark has been set. */
    constructor (g: Graph)
      ensures this.g == g && View() == BLANK
    {
      this.g := g;
      node, edge := map[], map[];
    }

    method AllInEdgesSkipped(n: NodeId) returns (all: bool)
      requires Linked(g)
      ensures all == AllSkipped(g, edge, n)
    {
      assert LinkedAt(g, n);
      var ins := In(g, n);
      for i := 0 to |ins|
        invariant forall k :: 0 <= k < i ==> EdgeMark(edge, ins[k]) == Skipped
      {
        if EdgeMark(edge, ins[i]) != Skipped {
          assert ins[i] in ins;
          return false;
        }
      }
      return true;
    }

    method MarkDownstream(n: NodeId, depth: nat) returns (ok: bool)
      requires Linked(g)
      modifies this
      ensures ok == Downstream(g, old(View()), n, depth).Some?
      ensures ok ==> View() == Downstream(g, old(View()), n, depth).value
      decreases depth, 0
    {
      if depth == 0 { return false; }
      if NodeMark(View(), n) != Skipped { return true; }
      ok := MarkEach(Out(g, n), depth - 1);
    }

    /** Its loop over out-edges. */
    method MarkEach(es: seq<EdgeId>, depth: nat) returns (ok: bool)
      requires Linked(g)
      modifies this
      ensures ok == DownstreamEach(g, old(View()), es, depth).Some?
      ensures ok ==> View() == DownstreamEach(g, old(View()), es, depth).value
      decreases depth, 1
    {
      hide Linked;
      assert es[0..] == es;
      for i := 0 to |es|
        invariant DownstreamEach(g, View(), es[i..], depth) == DownstreamEach(g, old(View()), es, depth)
      {
        assert es[i..][0] == es[i] && es[i..][1..] == es[i + 1..];
        ghost var s := View();
        edge := edge[es[i] := Skipped];
        assert View() == MarkEdge(s, es[i], Skipped);
        var target := Head(g, es[i]);
        var all := AllInEdgesSkipped(target);
        if all {
          ghost var s1 := View();
          node := node[target := Skipped];
          assert View() == MarkNode(s1, target, Skipped);
          var deeper := MarkDownstream(target, depth);
          if !deeper { return false; }
        }
      }
      assert es[|es|..] == [];
      return true;
    }

    method SkipRoots(roots: seq<NodeId>)
      modifies this`node
      ensures View() == SkipNodes(old(View()), roots)
    {
      assert roots[0..] == roots;
      for i := 0 to |roots|
        invariant SkipNodes(View(), roots[i..]) == SkipNodes(old(View()), roots)
      {
        assert roots[i..][1..] == roots[i + 1..];
        node := node[roots[i] := Skipped];
      }
      assert roots[|roots|..] == [];
    }

    /** `_mark_inactive_root_branches`; `order` lists the node table. */
    method MarkInactiveRootBranches(order: seq<NodeId>, depth: nat) returns (ok: bool)
      requires Linked(g) && View() == BLANK
      modifies this
      ensures ok == MarkAll(g, order, depth).Some?
      ensures ok ==> View() == MarkAll(g, order, depth).value
    {
      hide Linked, Downstream;
      var roots := InactiveRoots(g, order);
      SkipRoots(roots);
      ghost var s := View();
      assert roots[0..] == roots;
      for i := 0 to |roots|
        invariant DownstreamRoots(g, View(), roots[i..], depth) == DownstreamRoots(g, s, roots, depth)
      {
        assert roots[i..][0] == roots[i] && roots[i..][1..] == roots[i + 1..];
        var returned := MarkDownstream(roots[i], depth);
        if !returned { return false; }
      }
      assert roots[|roots|..] == [];
      return true;
    }
  }
}
