/** What skip propagation computes: the least set of nodes that is closed under "every in-edge
    is skipped, unselected, or leaves a node of the set". */
module SkipClosure {
  import opened Graphs
  import opened Traversal

  /** Every in-edge of `n` is already SKIPPED in `m`, is one of `unselected`, or leaves `dead`. */
  ghost predicate Starved(g: Graph, m: Marks, unselected: set<EdgeId>, dead: set<NodeId>, n: NodeId) {
    forall e :: e in g.edges && Head(g, e) == n ==>
      EdgeMark(m, e) == Skipped || e in unselected || Tail(g, e) in dead
  }

  ghost predicate Closed(g: Graph, m: Marks, unselected: set<EdgeId>, dead: set<NodeId>) {
    forall n :: n in g.nodes && HasUnknown(g, m, n) && Starved(g, m, unselected, dead, n) ==> n in dead
  }

  /** The nodes that die between `m` and `r`. */
  ghost function Dead(g: Graph, m: Marks, r: Marks): set<NodeId> {
    set n | n in g.nodes && Dies(g, m, r, n)
  }

  /** Marks changed since `m` belong to unselected edges or to edges that leave `dead`. */
  ghost predicate Within(g: Graph, m: Marks, unselected: set<EdgeId>, dead: set<NodeId>, q: Marks) {
    forall d :: d in g.edges && EdgeMark(q, d) != EdgeMark(m, d) ==>
      EdgeMark(m, d) == Unknown && (d in unselected || Tail(g, d) in dead)
  }

  lemma {:induction false} SkipFromEdgeStaysWithin(g: Graph, m: Marks, unselected: set<EdgeId>, dead: set<NodeId>,
      s: State, e: EdgeId)
    requires Wf(g) && Closed(g, m, unselected, dead) && Within(g, m, unselected, dead, s.edge)
    requires Causal(g, s.edge) && e in g.edges && Untouched(g, s.edge, Head(g, e))
    requires EdgeMark(m, e) == Unknown
    ensures Within(g, m, unselected, dead, SkipFromEdge(g, s, e).edge)
    decreases Waiting(g, s.edge), 1
  {
    var n := Head(g, e);
    if !HasUnknown(g, s.edge, n) && !HasTaken(g, s.edge, n) {
      assert HasUnknown(g, m, n);
      assert Starved(g, m, unselected, dead, n);
      assert LinkedAt(g, n);
      SkipEdgesStaysWithin(g, m, unselected, dead, MarkNode(s, n, Skipped), n, Out(g, n));
    }
  }

  lemma {:induction false} SkipEdgesStaysWithin(g: Graph, m: Marks, unselected: set<EdgeId>, dead: set<NodeId>,
      s: State, b: NodeId, es: seq<EdgeId>)
    requires Wf(g) && Closed(g, m, unselected, dead) && Within(g, m, unselected, dead, s.edge)
    requires Pending(g, s.edge, b, es)
    requires Elems(es) <= unselected || b in dead
    ensures Within(g, m, unselected, dead, SkipEdges(g, s, b, es).edge)
    decreases Waiting(g, s.edge), 0
  {
    if es != [] {
      var e := es[0];
      ElemsCons(es);
      var q := SkipEdgesStep(g, s, b, es);
      var s1 := MarkEdge(s, e, Skipped);
      assert e in es;
      MarkIsCausal(g, s.edge, b, e, Skipped);
      assert Within(g, m, unselected, dead, s1.edge);
      SkipFromEdgeStaysWithin(g, m, unselected, dead, s1, e);
      SkipEdgesStaysWithin(g, m, unselected, dead, q, b, es[1..]);
    }
  }

  /** The nodes that die are a closed set, and every closed set contains them. */
  lemma SkipEdgesIsLeastClosure(g: Graph, s: State, b: NodeId, es: seq<EdgeId>)
    requires Wf(g) && Pending(g, s.edge, b, es)
    ensures Closed(g, s.edge, Elems(es), Dead(g, s.edge, SkipEdges(g, s, b, es).edge))
    ensures forall dead :: Closed(g, s.edge, Elems(es), dead) ==> Dead(g, s.edge, SkipEdges(g, s, b, es).edge) <= dead
  {
    var r := SkipEdges(g, s, b, es);
    SkipEdgesResolves(g, s, b, es);
    DeadIsClosed(g, s.edge, Elems(es), r.edge);
    forall dead | Closed(g, s.edge, Elems(es), dead) ensures Dead(g, s.edge, r.edge) <= dead {
      SkipEdgesStaysWithin(g, s.edge, Elems(es), dead, s, b, es);
      DeadStaysWithin(g, s.edge, Elems(es), dead, r.edge);
    }
  }

  lemma DeadIsClosed(g: Graph, m: Marks, unselected: set<EdgeId>, r: Marks)
    requires Causal(g, m) && EdgesResolved(g, m, r, {}, unselected)
    requires forall e :: e in unselected ==> EdgeMark(m, e) == Unknown
    ensures Closed(g, m, unselected, Dead(g, m, r))
  {
    var dead := Dead(g, m, r);
    forall n | n in g.nodes && HasUnknown(g, m, n) && Starved(g, m, unselected, dead, n)
      ensures n in dead
    {
      forall e | e in g.edges && Head(g, e) == n ensures EdgeMark(r, e) == Skipped {
        if EdgeMark(m, e) != Unknown {
          assert !HasUnknown(g, m, Tail(g, e));
        }
      }
    }
  }

  lemma DeadStaysWithin(g: Graph, m: Marks, unselected: set<EdgeId>, dead: set<NodeId>, r: Marks)
    requires Closed(g, m, unselected, dead) && Within(g, m, unselected, dead, r)
    ensures Dead(g, m, r) <= dead
  {
    forall n | n in Dead(g, m, r) ensures n in dead {
      forall e | e in g.edges && Head(g, e) == n
        ensures EdgeMark(m, e) == Skipped || e in unselected || Tail(g, e) in dead
      {
        assert EdgeMark(r, e) == Skipped;
      }
      assert Starved(g, m, unselected, dead, n);
    }
  }

  /** The order in which the unselected edges are listed does not matter: edges, nodes and the
      executing set end the same, and the same nodes are queued, each once. */
  lemma SkipOrderIsIrrelevant(g: Graph, s: State, b: NodeId, es: seq<EdgeId>, fs: seq<EdgeId>)
    requires Wf(g) && Pending(g, s.edge, b, es) && Pending(g, s.edge, b, fs) && Elems(es) == Elems(fs)
    ensures var r, q := SkipEdges(g, s, b, es), SkipEdges(g, s, b, fs);
      && (forall d :: d in g.edges ==> EdgeMark(r.edge, d) == EdgeMark(q.edge, d))
      && (forall n :: n in g.nodes ==> NodeMark(r, n) == NodeMark(q, n))
      && multiset(r.queue) == multiset(q.queue) && r.executing == q.executing
  {
    var r, q := SkipEdges(g, s, b, es), SkipEdges(g, s, b, fs);
    SkipEdgesIsLeastClosure(g, s, b, es);
    SkipEdgesIsLeastClosure(g, s, b, fs);
    assert Dead(g, s.edge, r.edge) == Dead(g, s.edge, q.edge);
    SkipEdgesResolves(g, s, b, es);
    SkipEdgesResolves(g, s, b, fs);
    SameDeadSameMarks(g, s.edge, Elems(es), r.edge, q.edge);
    SameMarksSameRelease(g, s, r, q);
  }

  lemma SameDeadSameMarks(g: Graph, m: Marks, unselected: set<EdgeId>, r: Marks, q: Marks)
    requires Wf(g) && EdgesResolved(g, m, r, {}, unselected) && EdgesResolved(g, m, q, {}, unselected)
    requires Dead(g, m, r) == Dead(g, m, q)
    ensures forall d :: d in g.edges ==> EdgeMark(r, d) == EdgeMark(q, d)
    ensures forall n :: Dies(g, m, r, n) == Dies(g, m, q, n)
    ensures Released(g, m, r) == Released(g, m, q)
  {
    forall d | d in g.edges ensures EdgeMark(r, d) == EdgeMark(q, d) {
      assert Tail(g, d) in Dead(g, m, r) <==> Dies(g, m, r, Tail(g, d));
      assert Tail(g, d) in Dead(g, m, q) <==> Dies(g, m, q, Tail(g, d));
    }
    forall n ensures HasUnknown(g, r, n) == HasUnknown(g, q, n) && HasTaken(g, r, n) == HasTaken(g, q, n) {
    }
  }

  lemma SameMarksSameRelease(g: Graph, s: State, r: State, q: State)
    requires ReleasedOnce(g, s, r, []) && ReleasedOnce(g, s, q, [])
    requires NodesResolved(g, s, r, Elems(Queued(s, r))) && NodesResolved(g, s, q, Elems(Queued(s, q)))
    requires forall n :: Dies(g, s.edge, r.edge, n) == Dies(g, s.edge, q.edge, n)
    requires Released(g, s.edge, r.edge) == Released(g, s.edge, q.edge)
    ensures forall n :: n in g.nodes ==> NodeMark(r, n) == NodeMark(q, n)
    ensures multiset(r.queue) == multiset(q.queue) && r.executing == q.executing
  {
    ListsReleased(Queued(s, r), [], Released(g, s.edge, r.edge));
    ListsReleased(Queued(s, q), [], Released(g, s.edge, q.edge));
    assert Elems(Queued(s, r)) == Elems(Queued(s, q));
    var none: seq<NodeId> := [];
    assert multiset(none) == multiset{};
    assert multiset(Queued(s, r)) + multiset(none) == multiset(Queued(s, r));
    assert multiset(Queued(s, q)) + multiset(none) == multiset(Queued(s, q));
    assert multiset(Queued(s, r)) == multiset(Queued(s, q));
    assert multiset(r.queue) == multiset(s.queue) + multiset(Queued(s, r));
    assert multiset(q.queue) == multiset(s.queue) + multiset(Queued(s, q));
  }
}
