/** How `Graph.init` prepares a graph (graph.py): inactive root branches are skipped before the
    run starts. */
module GraphInit {
  import opened Graphs
  import opened Traversal
  import opened Completion
  import opened Marking
  import opened Scheduler
  import opened Runs
  import opened Walks

  ghost predicate NoTaken(g: Graph, m: Marks) {
    forall e :: e in g.edges ==> EdgeMark(m, e) != Taken
  }

  /** `mark_downstream`: stops at nodes that are not SKIPPED. On marks without TAKEN edges it is
      skip propagation. */
  function MarkDownstream(g: Graph, s: State, n: NodeId): (r: State)
    requires Wf(g) && NoTaken(g, s.edge) && Causal(g, s.edge) && !HasUnknown(g, s.edge, n) && Untouched(g, s.edge, n)
    ensures NodeMark(s, n) == Skipped ==>
      LinkedAt(g, n) && Pending(g, s.edge, n, Out(g, n)) && r == SkipEdges(g, s, n, Out(g, n))
    decreases Waiting(g, s.edge), 1
  {
    assert LinkedAt(g, n);
    if NodeMark(s, n) != Skipped then s else MarkDownstreamEdges(g, s, n, Out(g, n))
  }

  /** The loop over out-edges in `mark_downstream`. */
  function MarkDownstreamEdges(g: Graph, s: State, b: NodeId, es: seq<EdgeId>): (r: State)
    requires Wf(g) && NoTaken(g, s.edge) && Pending(g, s.edge, b, es)
    ensures r == SkipEdges(g, s, b, es)
    decreases Waiting(g, s.edge), 0
  {
    if es == [] then s
    else
      assert es[0] in es;
      var s1 := MarkEdge(s, es[0], Skipped);
      var target := Head(g, es[0]);
      MarkIsCausal(g, s.edge, b, es[0], Skipped);
      var s2 := if AllSkipped(g, s1.edge, target) then MarkDownstream(g, MarkNode(s1, target, Skipped), target) else s1;
      DownstreamIsSkip(g, s1, es[0], s2);
      RestIsPending(g, s.edge, b, es, s2.edge);
      MarkDownstreamEdges(g, s2, b, es[1..])
  }

  /** One edge of the loop does what `propagate_skip_from_edge` does. */
  lemma DownstreamIsSkip(g: Graph, s1: State, e: EdgeId, s2: State)
    requires Wf(g) && NoTaken(g, s1.edge) && Causal(g, s1.edge) && e in g.edges && Untouched(g, s1.edge, Head(g, e))
    requires EdgeMark(s1.edge, e) == Skipped
    requires AllSkipped(g, s1.edge, Head(g, e)) ==> Pending(g, s1.edge, Head(g, e), Out(g, Head(g, e)))
    requires AllSkipped(g, s1.edge, Head(g, e)) ==>
      s2 == SkipEdges(g, MarkNode(s1, Head(g, e), Skipped), Head(g, e), Out(g, Head(g, e)))
    requires !AllSkipped(g, s1.edge, Head(g, e)) ==> s2 == s1
    ensures s2 == SkipFromEdge(g, s1, e)
    ensures NoTaken(g, s2.edge)
  {
    assert AllSkipped(g, s1.edge, Head(g, e)) <==> !HasUnknown(g, s1.edge, Head(g, e));
    assert SkipsOnly(g, s1.edge, s2.edge, Leaving(g, Head(g, e)));
    forall d | d in g.edges ensures EdgeMark(s2.edge, d) != Taken {
      assert EdgeMark(s1.edge, d) != Taken;
    }
  }

  // ---------- the inactive roots ----------

  /** ROOT nodes in the order of the node table. */
  function RootNodes(g: Graph, order: seq<NodeId>): (r: seq<NodeId>)
    ensures forall n :: n in r <==> n in order && Kind(g, n) == Root
    ensures multiset(r) <= multiset(order)
    decreases |order|
  {
    if order == [] then []
    else
      assert order == [order[0]] + order[1..];
      if Kind(g, order[0]) == Root then [order[0]] + RootNodes(g, order[1..]) else RootNodes(g, order[1..])
  }

  function Without(ns: seq<NodeId>, n: NodeId): (r: seq<NodeId>)
    ensures forall k :: k in r <==> k in ns && k != n
    ensures multiset(r) <= multiset(ns)
    decreases |ns|
  {
    if ns == [] then []
    else
      assert ns == [ns[0]] + ns[1..];
      if ns[0] == n then Without(ns[1..], n) else [ns[0]] + Without(ns[1..], n)
  }

  function SkipNodes(s: State, ns: seq<NodeId>): (r: State)
    ensures r == s.(node := r.node)
    ensures forall n :: NodeMark(r, n) == if n in ns then Skipped else NodeMark(s, n)
    decreases |ns|
  {
    if ns == [] then s else SkipNodes(MarkNode(s, ns[0], Skipped), ns[1..])
  }

  /** An edge is SKIPPED exactly when its tail is, apart from the roots still to be processed. */
  ghost predicate EdgeFresh(g: Graph, s: State, todo: set<NodeId>, d: EdgeId) {
    EdgeMark(s.edge, d) == if NodeMark(s, Tail(g, d)) == Skipped && Tail(g, d) !in todo then Skipped else Unknown
  }

  ghost predicate NodeFresh(g: Graph, s: State, inactive: set<NodeId>, n: NodeId) {
    SkipOk(g, s, inactive, n) && NodeMark(s, n) != Taken
  }

  ghost predicate PartlyFresh(g: Graph, inactive: set<NodeId>, s: State, todo: set<NodeId>) {
    && s.queue == [] && s.executing == {} && todo <= inactive
    && (forall d :: d in g.edges ==> EdgeFresh(g, s, todo, d))
    && (forall n :: n in g.nodes ==> NodeFresh(g, s, inactive, n))
    && (forall n :: n in inactive ==> n in g.nodes && n != g.root && IsSource(g, n))
  }

  lemma PartlyFreshIsPending(g: Graph, inactive: set<NodeId>, s: State, todo: set<NodeId>, b: NodeId)
    requires Wf(g) && PartlyFresh(g, inactive, s, todo) && b in todo
    ensures NoTaken(g, s.edge) && Causal(g, s.edge) && !HasUnknown(g, s.edge, b) && Untouched(g, s.edge, b)
    ensures NodeMark(s, b) == Skipped
  {
    assert NodeFresh(g, s, inactive, b);
    forall d | d in g.edges
      ensures EdgeMark(s.edge, d) != Taken && (EdgeMark(s.edge, d) != Unknown ==> !HasUnknown(g, s.edge, Tail(g, d)))
      ensures Tail(g, d) == b ==> EdgeMark(s.edge, d) == Unknown
    {
      assert EdgeFresh(g, s, todo, d) && NodeFresh(g, s, inactive, Tail(g, d));
    }
  }

  lemma RootKeepsNode(g: Graph, inactive: set<NodeId>, s: State, r: State, n: NodeId, b: NodeId)
    requires Wf(g) && n in g.nodes && NodeFresh(g, s, inactive, n) && (n in inactive ==> IsSource(g, n))
    requires EdgesResolved(g, s.edge, r.edge, {}, Leaving(g, b)) && NodesResolved(g, s, r, {})
    requires NoTaken(g, r.edge)
    ensures NodeFresh(g, r, inactive, n)
  {
    if HasUnknown(g, s.edge, n) {
      assert !IsSource(g, n);
    } else {
      assert forall e :: e in g.edges && Head(g, e) == n ==> EdgeMark(r.edge, e) == EdgeMark(s.edge, e);
    }
  }

  lemma RootKeepsEdge(g: Graph, inactive: set<NodeId>, s: State, todo: set<NodeId>, b: NodeId, r: State, d: EdgeId)
    requires Wf(g) && d in g.edges && EdgeFresh(g, s, todo, d) && b in todo && IsSource(g, b)
    requires NodeMark(s, b) == Skipped
    requires NodeFresh(g, s, inactive, Tail(g, d)) && (Tail(g, d) in inactive ==> IsSource(g, Tail(g, d)))
    requires EdgesResolved(g, s.edge, r.edge, {}, Leaving(g, b)) && NodesResolved(g, s, r, {})
    requires todo <= inactive
    ensures EdgeFresh(g, r, todo - {b}, d)
  {
    var n := Tail(g, d);
    if NodeMark(s, n) == Skipped { assert !HasUnknown(g, s.edge, n); }
    assert Tail(g, d) in g.nodes;
  }

  /** Processing one root. */
  lemma RootKeepsFresh(g: Graph, inactive: set<NodeId>, s: State, todo: set<NodeId>, b: NodeId, r: State)
    requires Wf(g) && PartlyFresh(g, inactive, s, todo) && b in todo
    requires Resolves(g, s, r, {}, Leaving(g, b), [])
    requires NoTaken(g, r.edge)
    ensures PartlyFresh(g, inactive, r, todo - {b})
  {
    hide EdgesResolved, NodesResolved;
    PartlyFreshIsPending(g, inactive, s, todo, b);
    assert Released(g, s.edge, r.edge) == {};
    NothingQueued(s, r, Released(g, s.edge, r.edge));
    assert Elems(Queued(s, r)) == {};
    forall n | n in g.nodes ensures NodeFresh(g, r, inactive, n) {
      assert NodeFresh(g, s, inactive, n);
      RootKeepsNode(g, inactive, s, r, n, b);
    }
    forall d | d in g.edges ensures EdgeFresh(g, r, todo - {b}, d) {
      assert EdgeFresh(g, s, todo, d) && NodeFresh(g, s, inactive, Tail(g, d));
      RootKeepsEdge(g, inactive, s, todo, b, r, d);
    }
  }

  lemma NothingQueued(s: State, r: State, released: set<NodeId>)
    requires released == {} && r.queue == s.queue + Queued(s, r) && r.executing == s.executing + Elems(Queued(s, r))
    requires multiset(Queued(s, r)) + multiset([]) == multiset(released)
    ensures Queued(s, r) == [] && r.queue == s.queue && r.executing == s.executing
  {
    var none: seq<NodeId> := [];
    assert multiset(none) == multiset{};
    assert |multiset(Queued(s, r)) + multiset(none)| == |Queued(s, r)|;
  }

  /** The last loop of `_mark_inactive_root_branches`. */
  function MarkRoots(g: Graph, ghost inactive: set<NodeId>, s: State, roots: seq<NodeId>): (r: State)
    requires Wf(g) && PartlyFresh(g, inactive, s, Elems(roots)) && NoDup(roots)
    ensures PartlyFresh(g, inactive, r, {})
    decreases |roots|
  {
    if roots == [] then
      assert Elems(roots) == {};
      s
    else
      ElemsCons(roots);
      NoDupTail(roots);
      PartlyFreshIsPending(g, inactive, s, Elems(roots), roots[0]);
      var m := MarkDownstream(g, s, roots[0]);
      RootIsProcessed(g, inactive, s, roots, m);
      MarkRoots(g, inactive, m, roots[1..])
  }

  lemma RootIsProcessed(g: Graph, inactive: set<NodeId>, s: State, roots: seq<NodeId>, m: State)
    requires Wf(g) && PartlyFresh(g, inactive, s, Elems(roots)) && NoDup(roots) && roots != []
    requires Pending(g, s.edge, roots[0], Out(g, roots[0])) && m == SkipEdges(g, s, roots[0], Out(g, roots[0]))
    ensures PartlyFresh(g, inactive, m, Elems(roots[1..]))
  {
    hide Resolves, PartlyFresh, Causal, Untouched;
    var b := roots[0];
    ElemsCons(roots);
    NoDupTail(roots);
    PartlyFreshIsPending(g, inactive, s, Elems(roots), b);
    SkipEdgesResolves(g, s, b, Out(g, b));
    assert LinkedAt(g, b);
    assert Elems(Out(g, b)) == Leaving(g, b);
    forall d | d in g.edges ensures EdgeMark(m.edge, d) != Taken {
      assert EdgeMark(s.edge, d) != Taken;
    }
    RootKeepsFresh(g, inactive, s, Elems(roots), b, m);
    assert Elems(roots) - {b} == Elems(roots[1..]);
  }

  const BLANK := State(map[], map[], [], {})

  /** The roots that `_mark_inactive_root_branches` skips: none when there is a single root or
      the active node is not one of them. */
  function InactiveRoots(g: Graph, order: seq<NodeId>): seq<NodeId> {
    var roots := RootNodes(g, order);
    if |roots| <= 1 || g.root !in roots then [] else Without(roots, g.root)
  }

  /** `_mark_inactive_root_branches`. */
  function MarkInactiveRoots(g: Graph, order: seq<NodeId>): (r: State)
    requires Wf(g) && RootsAreSources(g) && NoDup(order) && Elems(order) == g.nodes.Keys
    ensures Fresh(g, Elems(InactiveRoots(g, order)), r)
  {
    var roots := InactiveRoots(g, order);
    InactiveRootsAreFresh(g, order);
    var r := MarkRoots(g, Elems(roots), SkipNodes(BLANK, roots), roots);
    FreshWhenDone(g, Elems(roots), r);
    r
  }

  /** No edge enters a ROOT node (graph.py:252-253 says so; the filter does not check it). */
  ghost predicate RootsAreSources(g: Graph) {
    forall n :: n in g.nodes && Kind(g, n) == Root ==> IsSource(g, n)
  }

  lemma InactiveRootsAreFresh(g: Graph, order: seq<NodeId>)
    requires Wf(g) && RootsAreSources(g) && NoDup(order) && Elems(order) == g.nodes.Keys
    ensures var roots := InactiveRoots(g, order);
      NoDup(roots) && PartlyFresh(g, Elems(roots), SkipNodes(BLANK, roots), Elems(roots))
  {
    var roots := InactiveRoots(g, order);
    assert forall n :: n in roots ==> n in Elems(order) && Kind(g, n) == Root && n != g.root;
    var s := SkipNodes(BLANK, roots);
    forall d | d in g.edges ensures EdgeFresh(g, s, Elems(roots), d) {
    }
    forall n | n in g.nodes ensures NodeFresh(g, s, Elems(roots), n) {
      if !IsSource(g, n) {
        var e :| e in g.edges && Head(g, e) == n;
        assert EdgeMark(s.edge, e) == Unknown;
      }
    }
  }

  lemma FreshWhenDone(g: Graph, inactive: set<NodeId>, s: State)
    requires PartlyFresh(g, inactive, s, {})
    ensures Fresh(g, inactive, s)
  {
    forall d | d in g.edges ensures EdgeOk(g, s, map[], d) {
      assert EdgeFresh(g, s, {}, d);
    }
    forall n | n in g.nodes ensures SkipOk(g, s, inactive, n) && NodeMark(s, n) != Taken {
      assert NodeFresh(g, s, inactive, n);
    }
  }

  // ---------- which nodes are skipped ----------

  /** Every source from which a walk leads to `n` is an inactive root. */
  ghost predicate OnlyInactiveSources(g: Graph, inactive: set<NodeId>, n: NodeId) {
    forall a, p :: IsWalk(g, a, p, n) && IsSource(g, a) ==> a in inactive
  }

  /** On an acyclic graph exactly the nodes all of whose source ancestors are inactive roots are
      skipped before the run. */
  lemma {:induction false} SkippedIffOnlyInactiveSources(g: Graph, rank: map<NodeId, nat>, inactive: set<NodeId>,
      s: State, n: NodeId)
    requires Wf(g) && Ranked(g, rank) && Fresh(g, inactive, s) && n in g.nodes
    ensures NodeMark(s, n) == Skipped <==> OnlyInactiveSources(g, inactive, n)
  {
    if NodeMark(s, n) == Skipped {
      forall a, p | IsWalk(g, a, p, n) && IsSource(g, a) ensures a in inactive {
        SkippedSourcesAreInactive(g, inactive, s, a, p, n);
      }
    } else {
      var a, p := ActiveSource(g, rank, inactive, s, n);
    }
  }

  lemma {:induction false} SkippedSourcesAreInactive(g: Graph, inactive: set<NodeId>, s: State, a: NodeId,
      p: seq<EdgeId>, n: NodeId)
    requires Wf(g) && Fresh(g, inactive, s) && n in g.nodes && NodeMark(s, n) == Skipped
    requires IsWalk(g, a, p, n) && IsSource(g, a)
    ensures a in inactive
    decreases |p|
  {
    assert SkipOk(g, s, inactive, n);
    if p != [] {
      var e := p[|p| - 1];
      assert EdgeOk(g, s, map[], e);
      SkippedSourcesAreInactive(g, inactive, s, a, p[..|p| - 1], Tail(g, e));
    }
  }

  lemma {:induction false} ActiveSource(g: Graph, rank: map<NodeId, nat>, inactive: set<NodeId>, s: State, n: NodeId)
    returns (a: NodeId, p: seq<EdgeId>)
    requires Wf(g) && Ranked(g, rank) && Fresh(g, inactive, s) && n in g.nodes && NodeMark(s, n) != Skipped
    ensures IsWalk(g, a, p, n) && IsSource(g, a) && a !in inactive
    decreases rank[n]
  {
    assert SkipOk(g, s, inactive, n);
    if IsSource(g, n) {
      a, p := n, [];
    } else {
      var e :| e in g.edges && Head(g, e) == n && EdgeMark(s.edge, e) != Skipped;
      assert EdgeOk(g, s, map[], e);
      a, p := ActiveSource(g, rank, inactive, s, Tail(g, e));
      WalkSnoc(g, a, p, e);
      p := p + [e];
    }
  }

  /** In particular nothing that the active root reaches is skipped. */
  lemma ReachableFromRootIsNotSkipped(g: Graph, inactive: set<NodeId>, s: State, p: seq<EdgeId>, n: NodeId)
    requires Wf(g) && Fresh(g, inactive, s) && n in g.nodes && IsWalk(g, g.root, p, n)
    ensures NodeMark(s, n) != Skipped
  {
    if NodeMark(s, n) == Skipped {
      SkippedSourcesAreInactive(g, inactive, s, g.root, p, n);
    }
  }
}
