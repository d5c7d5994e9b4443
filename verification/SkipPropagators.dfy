/** The skip propagator as an object over the state manager (skip_propagator.py). */
module SkipPropagators {
  import opened Graphs
  import opened Traversal
  import opened Completion
  import opened SkipCount
  import opened StateManagers

  class SkipPropagator {
    const sm: GraphStateManager
    ghost var calls: seq<NodeId>    // the nodes that were processed, in order

    constructor (sm: GraphStateManager)
      ensures this.sm == sm && calls == []
    {
      this.sm := sm;
      calls := [];
    }

    /** The recursion terminates although nothing records visited nodes: every round resolves an
        edge for good. */
    method PropagateSkipFromEdge(e: EdgeId)
      requires Wf(sm.g) && Causal(sm.g, sm.edge) && e in sm.g.edges && Untouched(sm.g, sm.edge, Head(sm.g, e))
      modifies this, sm, sm.queue
      ensures sm.View() == SkipFromEdge(sm.g, old(sm.View()), e)
      ensures calls == old(calls) + FromEdgeCalls(sm.g, old(sm.View()), e)
      decreases Waiting(sm.g, sm.edge), 2
    {
      var n := Head(sm.g, e);
      var hasUnknown, hasTaken, allSkipped := sm.AnalyzeEdgeStates(In(sm.g, n));
      sm.FlagsOfInEdges(n);
      assert calls + [] == calls;
      if hasUnknown { return; }
      if hasTaken {
        sm.EnqueueNode(n);
        sm.StartExecution(n);
        return;
      }
      if allSkipped { PropagateSkipToNode(n); }
    }

    method PropagateSkipToNode(n: NodeId)
      requires Wf(sm.g) && Causal(sm.g, sm.edge) && !HasUnknown(sm.g, sm.edge, n) && Untouched(sm.g, sm.edge, n)
      modifies this, sm, sm.queue
      ensures sm.View() == SkipNode(sm.g, old(sm.View()), n)
      ensures calls == old(calls) + NodeCalls(sm.g, old(sm.View()), n)
      decreases Waiting(sm.g, sm.edge), 1
    {
      hide SkipEdges, EdgesCalls, SkipNode, NodeCalls, Pending;
      NodeStep(sm.g, sm.View(), n, calls);
      calls := calls + [n];
      sm.MarkNodeSkipped(n);
      SkipEach(n, Out(sm.g, n));
    }

    method SkipBranchPaths(ghost b: NodeId, unselected: seq<EdgeId>)
      requires Wf(sm.g) && Pending(sm.g, sm.edge, b, unselected)
      modifies this, sm, sm.queue
      ensures sm.View() == SkipEdges(sm.g, old(sm.View()), b, unselected)
      ensures exists once: seq<NodeId> :: calls == old(calls) + once && EachOnce(sm.g, old(sm.edge), sm.edge, once)
    {
      EdgesOnce(sm.g, sm.View(), b, unselected);
      SkipEach(b, unselected);
    }

    /** The loop of both: mark each edge and propagate from it. All the edges leave `b`. */
    method SkipEach(ghost b: NodeId, es: seq<EdgeId>)
      requires Wf(sm.g) && Pending(sm.g, sm.edge, b, es)
      modifies this, sm, sm.queue
      ensures sm.View() == SkipEdges(sm.g, old(sm.View()), b, es)
      ensures calls == old(calls) + EdgesCalls(sm.g, old(sm.View()), b, es)
      decreases Waiting(sm.g, sm.edge), 0
    {
      hide SkipEdges, SkipFromEdge, Pending, EdgesCalls, FromEdgeCalls;
      ghost var goal, called := SkipEdges(sm.g, sm.View(), b, es), calls + EdgesCalls(sm.g, sm.View(), b, es);
      assert es[0..] == es;
      for i := 0 to |es|
        invariant Pending(sm.g, sm.edge, b, es[i..]) && Waiting(sm.g, sm.edge) <= old(Waiting(sm.g, sm.edge))
        invariant SkipEdges(sm.g, sm.View(), b, es[i..]) == goal
        invariant calls + EdgesCalls(sm.g, sm.View(), b, es[i..]) == called
      {
        var e := es[i];
        ghost var s := sm.View();
        assert es[i..][0] == e && es[i..][1..] == es[i + 1..];
        ghost var m := SkipEdgesStep(sm.g, s, b, es[i..]);
        MarkingWaits(sm.g, s.edge, e);
        CallsStep(sm.g, s, b, es[i..], m, calls);
        sm.MarkEdgeSkipped(e);
        PropagateSkipFromEdge(e);
        assert sm.View() == m;
      }
      NothingToSkip(sm.g, sm.View(), b, es[|es|..], calls);
    }
  }

  /** A node is marked, and then its out-edges are skipped. */
  lemma NodeStep(g: Graph, s: State, n: NodeId, before: seq<NodeId>)
    requires Wf(g) && Causal(g, s.edge) && !HasUnknown(g, s.edge, n) && Untouched(g, s.edge, n)
    ensures Pending(g, s.edge, n, Out(g, n))
    ensures SkipNode(g, s, n) == SkipEdges(g, MarkNode(s, n, Skipped), n, Out(g, n))
    ensures before + NodeCalls(g, s, n) == (before + [n]) + EdgesCalls(g, MarkNode(s, n, Skipped), n, Out(g, n))
  {
    assert LinkedAt(g, n);
    hide SkipEdges, EdgesCalls, Linked, Wf, Causal, Untouched, HasUnknown;
    var after := EdgesCalls(g, MarkNode(s, n, Skipped), n, Out(g, n));
    assert NodeCalls(g, s, n) == [n] + after;
    assert before + ([n] + after) == (before + [n]) + after;
  }

  /** One round of the loop, with the calls before it. */
  lemma CallsStep(g: Graph, s: State, b: NodeId, es: seq<EdgeId>, m: State, before: seq<NodeId>)
    requires Wf(g) && Pending(g, s.edge, b, es) && es != [] && es[0] in g.edges
    requires Causal(g, MarkEdge(s, es[0], Skipped).edge)
    requires Untouched(g, MarkEdge(s, es[0], Skipped).edge, Head(g, es[0]))
    requires m == SkipFromEdge(g, MarkEdge(s, es[0], Skipped), es[0]) && Pending(g, m.edge, b, es[1..])
    ensures before + EdgesCalls(g, s, b, es) ==
      (before + FromEdgeCalls(g, MarkEdge(s, es[0], Skipped), es[0])) + EdgesCalls(g, m, b, es[1..])
  {
    hide SkipFromEdge, FromEdgeCalls;
  }

  lemma NothingToSkip(g: Graph, s: State, b: NodeId, es: seq<EdgeId>, before: seq<NodeId>)
    requires Wf(g) && Pending(g, s.edge, b, es) && |es| == 0
    ensures SkipEdges(g, s, b, es) == s && before + EdgesCalls(g, s, b, es) == before
  {
  }

  lemma MarkingWaits(g: Graph, m: Marks, e: EdgeId)
    requires e in g.edges && EdgeMark(m, e) == Unknown
    ensures Waiting(g, m[e := Skipped]) < Waiting(g, m)
  {
    assert e in UnknownEdges(g, m) && UnknownEdges(g, m[e := Skipped]) == UnknownEdges(g, m) - {e};
  }
}
