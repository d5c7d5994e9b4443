/** How often skip propagation processes a node: the calls of `_propagate_skip_to_node`, in order,
    name every node that dies, each once (skip_propagator.py). */
module SkipCount {
  import opened Graphs
  import opened Traversal
  import opened SkipClosure

  /** The nodes that the propagation from the edge processes. */
  ghost function FromEdgeCalls(g: Graph, s: State, e: EdgeId): seq<NodeId>
    requires Wf(g) && Causal(g, s.edge) && e in g.edges && Untouched(g, s.edge, Head(g, e))
    decreases Waiting(g, s.edge), 2
  {
    var n := Head(g, e);
    if HasUnknown(g, s.edge, n) || HasTaken(g, s.edge, n) then []
    else if AllSkipped(g, s.edge, n) then NodeCalls(g, s, n)
    else []
  }

  ghost function NodeCalls(g: Graph, s: State, n: NodeId): seq<NodeId>
    requires Wf(g) && Causal(g, s.edge) && !HasUnknown(g, s.edge, n) && Untouched(g, s.edge, n)
    decreases Waiting(g, s.edge), 1
  {
    assert LinkedAt(g, n);
    [n] + EdgesCalls(g, MarkNode(s, n, Skipped), n, Out(g, n))
  }

  ghost function EdgesCalls(g: Graph, s: State, b: NodeId, es: seq<EdgeId>): seq<NodeId>
    requires Wf(g) && Pending(g, s.edge, b, es)
    decreases Waiting(g, s.edge), 0
  {
    if es == [] then []
    else
      var s1 := MarkEdge(s, es[0], Skipped);
      MarkIsCausal(g, s.edge, b, es[0], Skipped);
      var m := SkipFromEdge(g, s1, es[0]);
      RestIsPending(g, s.edge, b, es, m.edge);
      FromEdgeCalls(g, s1, es[0]) + EdgesCalls(g, m, b, es[1..])
  }

  /** The calls list the nodes that die between `m` and `r`, each once. */
  ghost predicate EachOnce(g: Graph, m: Marks, r: Marks, calls: seq<NodeId>) {
    multiset(calls) == multiset(Dead(g, m, r))
  }

  lemma NobodyDies(g: Graph, m: Marks, r: Marks)
    requires forall n :: n in g.nodes ==> !Dies(g, m, r, n)
    ensures EachOnce(g, m, r, [])
  {
    assert Dead(g, m, r) == {};
  }

  lemma {:induction false} FromEdgeOnce(g: Graph, s: State, e: EdgeId)
    requires Wf(g) && e in g.edges && EdgeMark(s.edge, e) == Unknown && Tail(g, e) != Head(g, e)
    requires Causal(g, MarkEdge(s, e, Skipped).edge)
    requires Untouched(g, s.edge, Head(g, e)) && Untouched(g, MarkEdge(s, e, Skipped).edge, Head(g, e))
    ensures var s1 := MarkEdge(s, e, Skipped);
      EachOnce(g, s.edge, SkipFromEdge(g, s1, e).edge, FromEdgeCalls(g, s1, e))
    decreases Waiting(g, s.edge), 0
  {
    hide EachOnce;
    var s1 := MarkEdge(s, e, Skipped);
    var n := Head(g, e);
    if HasUnknown(g, s1.edge, n) || HasTaken(g, s1.edge, n) {
      MarkSettles(g, s.edge, e, Skipped, s1.edge);
      NobodyDies(g, s.edge, s1.edge);
    } else {
      var m := MarkNode(s1, n, Skipped);
      DeadNodeIsPending(g, s, e);
      EdgesOnce(g, m, n, Out(g, n));
      SkipEdgesResolves(g, m, n, Out(g, n));
      var r := SkipEdges(g, m, n, Out(g, n));
      DeadNodeDies(g, s.edge, e, m.edge, r.edge);
      FirstAndOthers(g, s.edge, m.edge, r.edge, n, EdgesCalls(g, m, n, Out(g, n)));
    }
  }

  /** A node that dies first, and then the others. */
  lemma FirstAndOthers(g: Graph, s: Marks, m: Marks, r: Marks, n: NodeId, calls: seq<NodeId>)
    requires EachOnce(g, m, r, calls) && n in g.nodes && !Settles(g, m, r, n)
    requires forall k :: Dies(g, s, r, k) <==> k == n || Dies(g, m, r, k)
    ensures EachOnce(g, s, r, [n] + calls)
  {
    assert Dead(g, s, r) == {n} + Dead(g, m, r);
    assert n !in Dead(g, m, r);
    assert multiset({n} + Dead(g, m, r)) == multiset{n} + multiset(Dead(g, m, r));
  }

  /** Skipping the pending edges of a node processes every node that this makes die, once, also on
      cyclic graphs, although nothing records visited nodes. */
  lemma {:induction false} EdgesOnce(g: Graph, s: State, b: NodeId, es: seq<EdgeId>)
    requires Wf(g) && Pending(g, s.edge, b, es)
    ensures EachOnce(g, s.edge, SkipEdges(g, s, b, es).edge, EdgesCalls(g, s, b, es))
    decreases Waiting(g, s.edge), 1, |es|
  {
    hide EachOnce;
    if es == [] {
      NobodyDies(g, s.edge, s.edge);
    } else {
      var s1 := MarkEdge(s, es[0], Skipped);
      var m := SkipEdgesStep(g, s, b, es);
      var r := SkipEdges(g, m, b, es[1..]);
      FromEdgeOnce(g, s, es[0]);
      EdgesOnce(g, m, b, es[1..]);
      SkipFromEdgeResolves(g, s, es[0]);
      SkipEdgesResolves(g, m, b, es[1..]);
      SettlesSplit(g, s.edge, m.edge, r.edge, {}, {es[0]}, {}, Elems(es[1..]));
      FirstAndThen(g, s.edge, m.edge, r.edge, FromEdgeCalls(g, s1, es[0]), EdgesCalls(g, m, b, es[1..]));
    }
  }

  lemma DiesInOne(g: Graph, s: Marks, m: Marks, r: Marks, n: NodeId)
    requires Settles(g, s, r, n) <==> Settles(g, s, m, n) || Settles(g, m, r, n)
    requires !(Settles(g, s, m, n) && Settles(g, m, r, n))
    requires !HasUnknown(g, m, n) ==> (HasTaken(g, r, n) <==> HasTaken(g, m, n))
    ensures Dies(g, s, r, n) <==> Dies(g, s, m, n) || Dies(g, m, r, n)
    ensures !(Dies(g, s, m, n) && Dies(g, m, r, n))
  {
  }

  lemma FirstAndThen(g: Graph, s: Marks, m: Marks, r: Marks, a: seq<NodeId>, b: seq<NodeId>)
    requires EachOnce(g, s, m, a) && EachOnce(g, m, r, b)
    requires forall n :: Settles(g, s, r, n) <==> Settles(g, s, m, n) || Settles(g, m, r, n)
    requires forall n :: !(Settles(g, s, m, n) && Settles(g, m, r, n))
    requires forall n :: !HasUnknown(g, m, n) ==> (HasTaken(g, r, n) <==> HasTaken(g, m, n))
    ensures EachOnce(g, s, r, a + b)
  {
    hide Dies, Settles, HasUnknown, HasTaken;
    forall n
      ensures Dies(g, s, r, n) <==> Dies(g, s, m, n) || Dies(g, m, r, n)
      ensures !(Dies(g, s, m, n) && Dies(g, m, r, n))
    {
      DiesInOne(g, s, m, r, n);
    }
    DeadInOne(g, s, m, r);
    hide Dead;
    JoinOnce(Dead(g, s, m), Dead(g, m, r), a, b);
  }

  lemma DeadInOne(g: Graph, s: Marks, m: Marks, r: Marks)
    requires forall n :: Dies(g, s, r, n) <==> Dies(g, s, m, n) || Dies(g, m, r, n)
    requires forall n :: !(Dies(g, s, m, n) && Dies(g, m, r, n))
    ensures Dead(g, s, r) == Dead(g, s, m) + Dead(g, m, r) && Dead(g, s, m) !! Dead(g, m, r)
  {
    hide Dies;
  }

  lemma JoinOnce(x: set<NodeId>, y: set<NodeId>, a: seq<NodeId>, b: seq<NodeId>)
    requires multiset(a) == multiset(x) && multiset(b) == multiset(y) && x !! y
    ensures multiset(a + b) == multiset(x + y)
  {
    assert multiset(x + y) == multiset(x) + multiset(y);
    assert multiset(a + b) == multiset(a) + multiset(b);
  }
}
