/** The scheduling invariant on marks, and why completing a node keeps it. */
module Marking {
  import opened Graphs
  import opened Traversal
  import opened Completion

  /** All in-edges are known and one is taken; the root needs nothing. */
  ghost predicate Runnable(g: Graph, m: Marks, n: NodeId) {
    n == g.root || (!HasUnknown(g, m, n) && HasTaken(g, m, n))
  }

  /** Whether finishing its tail with `handle` takes the edge. */
  predicate Takes(g: Graph, d: EdgeId, handle: string) {
    IsBranch(g, Tail(g, d)) ==> Handle(g, d) == handle
  }

  /** An edge is resolved exactly when its tail has finished or is SKIPPED, and then the handle
      that the tail finished with decides its mark. */
  ghost predicate EdgeOk(g: Graph, s: State, finished: map<NodeId, string>, d: EdgeId) {
    EdgeMark(s.edge, d) ==
      if Tail(g, d) in finished then (if Takes(g, d, finished[Tail(g, d)]) then Taken else Skipped)
      else if NodeMark(s, Tail(g, d)) == Skipped then Skipped
      else Unknown
  }

  /** A node is SKIPPED exactly when it is an inactive root or all of its in-edges, of which
      there are some, are SKIPPED. */
  ghost predicate SkipOk(g: Graph, s: State, inactive: set<NodeId>, n: NodeId) {
    NodeMark(s, n) == Skipped <==> n in inactive || (!IsSource(g, n) && AllSkipped(g, s.edge, n))
  }

  /** `active` are the nodes scheduled so far, `on` those among them marked TAKEN. */
  ghost predicate NodeOk(g: Graph, s: State, active: set<NodeId>, on: set<NodeId>, n: NodeId) {
    && (n in active <==> Runnable(g, s.edge, n))
    && (NodeMark(s, n) == Taken <==> n in on)
  }

  ghost predicate MarksOk(g: Graph, inactive: set<NodeId>, s: State, finished: map<NodeId, string>,
                          active: set<NodeId>, on: set<NodeId>) {
    && (forall d :: d in g.edges ==> EdgeOk(g, s, finished, d))
    && (forall n :: n in g.nodes ==> SkipOk(g, s, inactive, n))
    && (forall n :: n in g.nodes ==> NodeOk(g, s, active, on, n))
    && (forall n :: n in inactive ==> n in g.nodes && n != g.root && IsSource(g, n))
    && finished.Keys <= on <= active <= g.nodes.Keys
  }

  /** SKIPPED nodes and runnable ones wait for nothing and exclude each other. */
  lemma SkippedIsSettled(g: Graph, inactive: set<NodeId>, s: State, n: NodeId)
    requires Wf(g) && SkipOk(g, s, inactive, n) && (n in inactive ==> n != g.root && IsSource(g, n))
    ensures NodeMark(s, n) == Skipped ==> !HasUnknown(g, s.edge, n) && !Runnable(g, s.edge, n)
  {
  }

  lemma ActiveIsNotSkipped(g: Graph, inactive: set<NodeId>, s: State, finished: map<NodeId, string>,
      active: set<NodeId>, on: set<NodeId>, n: NodeId)
    requires Wf(g) && MarksOk(g, inactive, s, finished, active, on) && n in active
    ensures NodeMark(s, n) != Skipped && !HasUnknown(g, s.edge, n)
  {
    assert SkipOk(g, s, inactive, n) && NodeOk(g, s, active, on, n);
    SkippedIsSettled(g, inactive, s, n);
  }

  /** Marks that satisfy the invariant are causal, so skipping terminates. */
  lemma MarksAreCausal(g: Graph, inactive: set<NodeId>, s: State, finished: map<NodeId, string>, active: set<NodeId>,
      on: set<NodeId>)
    requires Wf(g) && MarksOk(g, inactive, s, finished, active, on)
    ensures Causal(g, s.edge)
  {
    forall d | d in g.edges && EdgeMark(s.edge, d) != Unknown
      ensures !HasUnknown(g, s.edge, Tail(g, d))
    {
      var n := Tail(g, d);
      assert EdgeOk(g, s, finished, d);
      if n in finished {
        ActiveIsNotSkipped(g, inactive, s, finished, active, on, n);
      } else {
        assert SkipOk(g, s, inactive, n);
        SkippedIsSettled(g, inactive, s, n);
      }
    }
  }

  /** A scheduled node that has not finished still has all of its out-edges to resolve. */
  lemma UnfinishedIsPending(g: Graph, inactive: set<NodeId>, s: State, finished: map<NodeId, string>,
      active: set<NodeId>, on: set<NodeId>, n: NodeId)
    requires Wf(g) && MarksOk(g, inactive, s, finished, active, on) && n in active && n !in finished
    ensures Pending(g, s.edge, n, Out(g, n))
  {
    MarksAreCausal(g, inactive, s, finished, active, on);
    ActiveIsNotSkipped(g, inactive, s, finished, active, on, n);
    assert LinkedAt(g, n);
    forall d | d in Out(g, n) ensures EdgeMark(s.edge, d) == Unknown {
      assert EdgeOk(g, s, finished, d);
    }
  }

  /** Completing `n` keeps the invariant: the released nodes are new and become active. */
  lemma CompletionKeepsMarks(g: Graph, inactive: set<NodeId>, s: State, finished: map<NodeId, string>,
      active: set<NodeId>, on: set<NodeId>,
                             n: NodeId, handle: string, r: State, ready: seq<NodeId>)
    requires Wf(g) && MarksOk(g, inactive, s, finished, active, on)
    requires n in on && n !in finished
    requires Resolves(g, s, r, TakenBy(g, n, handle), SkippedBy(g, n, handle), ready)
    ensures Released(g, s.edge, r.edge) !! active
    ensures MarksOk(g, inactive, r, finished[n := handle], active + Released(g, s.edge, r.edge),
      on + Elems(Queued(s, r)))
  {
    var fin, act, now := finished[n := handle], active + Released(g, s.edge, r.edge), Elems(Queued(s, r));
    ListsReleased(Queued(s, r), ready, Released(g, s.edge, r.edge));
    forall k | k in Released(g, s.edge, r.edge) ensures k !in active {
      assert NodeOk(g, s, active, on, k);
    }
    forall k | k in g.nodes ensures SkipOk(g, r, inactive, k) && NodeOk(g, r, act, on + now, k) {
      CompletionKeepsNode(g, inactive, s, finished, active, on, n, handle, r, k);
    }
    forall d | d in g.edges ensures EdgeOk(g, r, fin, d) {
      CompletionKeepsEdge(g, inactive, s, finished, active, on, n, handle, r, d);
    }
  }

  /** Where everything was known, nothing changes. */
  lemma SettledNodeKeeps(g: Graph, m: Marks, r: Marks, take: set<EdgeId>, skip: set<EdgeId>, k: NodeId)
    requires EdgesResolved(g, m, r, take, skip) && !HasUnknown(g, m, k)
    ensures !HasUnknown(g, r, k) && HasTaken(g, r, k) == HasTaken(g, m, k) && AllSkipped(g, r, k) == AllSkipped(g, m, k)
  {
    assert forall e :: e in g.edges && Head(g, e) == k ==> EdgeMark(r, e) == EdgeMark(m, e);
  }

  lemma CompletionKeepsNode(g: Graph, inactive: set<NodeId>, s: State, finished: map<NodeId, string>,
      active: set<NodeId>, on: set<NodeId>,
                            n: NodeId, handle: string, r: State, k: NodeId)
    requires Wf(g) && k in g.nodes && SkipOk(g, s, inactive, k) && NodeOk(g, s, active, on, k)
    requires on <= active && (k in inactive ==> k != g.root && IsSource(g, k))
    requires EdgesResolved(g, s.edge, r.edge, TakenBy(g, n, handle), SkippedBy(g, n, handle))
    requires NodesResolved(g, s, r, Elems(Queued(s, r)))
    requires Elems(Queued(s, r)) <= Released(g, s.edge, r.edge)
    ensures SkipOk(g, r, inactive, k)
    ensures NodeOk(g, r, active + Released(g, s.edge, r.edge), on + Elems(Queued(s, r)), k)
  {
    var now := Elems(Queued(s, r));
    SkippedIsSettled(g, inactive, s, k);
    if HasUnknown(g, s.edge, k) {
      hide EdgesResolved;
      assert !IsSource(g, k) && k !in active;
      assert NodeMark(s, k) != Skipped;
      assert AllSkipped(g, r.edge, k) <==> !HasUnknown(g, r.edge, k) && !HasTaken(g, r.edge, k);
    } else {
      SettledNodeKeeps(g, s.edge, r.edge, TakenBy(g, n, handle), SkippedBy(g, n, handle), k);
      hide EdgesResolved, HasUnknown, HasTaken, AllSkipped;
      assert k !in Released(g, s.edge, r.edge) && !Dies(g, s.edge, r.edge, k) && k !in now;
    }
  }

  lemma CompletionKeepsEdge(g: Graph, inactive: set<NodeId>, s: State, finished: map<NodeId, string>,
      active: set<NodeId>, on: set<NodeId>,
                            n: NodeId, handle: string, r: State, d: EdgeId)
    requires Wf(g) && MarksOk(g, inactive, s, finished, active, on) && d in g.edges
    requires n in on && n !in finished
    requires EdgesResolved(g, s.edge, r.edge, TakenBy(g, n, handle), SkippedBy(g, n, handle))
    requires NodesResolved(g, s, r, Elems(Queued(s, r)))
    requires Elems(Queued(s, r)) <= Released(g, s.edge, r.edge)
    ensures EdgeOk(g, r, finished[n := handle], d)
  {
    var k := Tail(g, d);
    assert EdgeOk(g, s, finished, d) && SkipOk(g, s, inactive, k);
    SkippedIsSettled(g, inactive, s, k);
    ActiveIsNotSkipped(g, inactive, s, finished, active, on, n);
    assert d in TakenBy(g, n, handle) <==> k == n && Takes(g, d, handle);
    assert d in SkippedBy(g, n, handle) <==> k == n && !Takes(g, d, handle);
    if k in finished {
      ActiveIsNotSkipped(g, inactive, s, finished, active, on, k);
    }
  }
}
