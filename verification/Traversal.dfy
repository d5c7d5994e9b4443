/** Edge traversal as functions: skip propagation (skip_propagator.py), the edges a finished
    node takes (edge_processor.py), and the relation `Resolves` that says what either of them
    does to the whole graph. */
module Traversal {
  import opened Graphs

  /** Edge marks; an edge without an entry has the initial mark. */
  type Marks = map<EdgeId, Mark>

  /** Node and edge marks, the ready queue and the executing set of `GraphStateManager`. */
  datatype State = State(node: map<NodeId, Mark>, edge: Marks, queue: seq<NodeId>, executing: set<NodeId>)

  function NodeMark(s: State, n: NodeId): Mark { if n in s.node then s.node[n] else Unknown }

  function EdgeMark(m: Marks, e: EdgeId): Mark { if e in m then m[e] else Unknown }

  predicate HasUnknown(g: Graph, m: Marks, n: NodeId) {
    exists e | e in g.edges :: Head(g, e) == n && EdgeMark(m, e) == Unknown
  }

  predicate HasTaken(g: Graph, m: Marks, n: NodeId) {
    exists e | e in g.edges :: Head(g, e) == n && EdgeMark(m, e) == Taken
  }

  predicate AllSkipped(g: Graph, m: Marks, n: NodeId) {
    forall e | e in g.edges :: Head(g, e) == n ==> EdgeMark(m, e) == Skipped
  }

  /** `is_node_ready`. */
  predicate IsReady(g: Graph, m: Marks, n: NodeId) {
    (forall e | e in g.edges :: Head(g, e) != n) || (!HasUnknown(g, m, n) && HasTaken(g, m, n))
  }

  function MarkEdge(s: State, e: EdgeId, m: Mark): State { s.(edge := s.edge[e := m]) }

  function MarkNode(s: State, n: NodeId, m: Mark): State { s.(node := s.node[n := m]) }

  /** `enqueue_node` followed by `start_execution`. */
  function Schedule(s: State, n: NodeId): State {
    s.(node := s.node[n := Taken], queue := s.queue + [n], executing := s.executing + {n})
  }

  // ---------- skip propagation ----------

  ghost function Leaving(g: Graph, n: NodeId): set<EdgeId> {
    set d | d in g.edges && Tail(g, d) == n
  }

  ghost function UnknownEdges(g: Graph, m: Marks): set<EdgeId> {
    set e | e in g.edges && EdgeMark(m, e) == Unknown
  }

  /** How many edges are still to be resolved. */
  ghost function Waiting(g: Graph, m: Marks): nat { |UnknownEdges(g, m)| }

  /** An edge is resolved only after every edge into its tail is. This is what makes the
      propagator, which has no visited set, stop. */
  ghost predicate Causal(g: Graph, m: Marks) {
    forall d :: d in g.edges && EdgeMark(m, d) != Unknown ==> !HasUnknown(g, m, Tail(g, d))
  }

  /** Every edge out of `n` is still to be resolved. */
  ghost predicate Untouched(g: Graph, m: Marks, n: NodeId) {
    forall d :: d in g.edges && Tail(g, d) == n ==> EdgeMark(m, d) == Unknown
  }

  /** Only UNKNOWN edges change, they become SKIPPED, and each of them is one of `es` or
      leaves a node that was still waiting for an in-edge. */
  ghost predicate SkipsOnly(g: Graph, m: Marks, r: Marks, es: set<EdgeId>) {
    forall d :: d in g.edges && EdgeMark(r, d) != EdgeMark(m, d) ==>
      EdgeMark(m, d) == Unknown && EdgeMark(r, d) == Skipped && (d in es || HasUnknown(g, m, Tail(g, d)))
  }

  /** A resolved node whose edges `es` are still to be marked. */
  ghost predicate Pending(g: Graph, m: Marks, b: NodeId, es: seq<EdgeId>) {
    && Causal(g, m) && !HasUnknown(g, m, b) && NoDup(es)
    && forall d :: d in es ==> d in g.edges && Tail(g, d) == b && EdgeMark(m, d) == Unknown
  }

  /** `propagate_skip_from_edge`. */
  function SkipFromEdge(g: Graph, s: State, e: EdgeId): (r: State)
    requires Wf(g) && Causal(g, s.edge) && e in g.edges && Untouched(g, s.edge, Head(g, e))
    ensures SkipsOnly(g, s.edge, r.edge, Leaving(g, Head(g, e))) && Causal(g, r.edge)
    ensures Waiting(g, r.edge) <= Waiting(g, s.edge)
    decreases Waiting(g, s.edge), 2
  {
    var n := Head(g, e);
    if HasUnknown(g, s.edge, n) then s
    else if HasTaken(g, s.edge, n) then Schedule(s, n)
    else if AllSkipped(g, s.edge, n) then SkipNode(g, s, n)
    else s
  }

  /** `_propagate_skip_to_node`. */
  function SkipNode(g: Graph, s: State, n: NodeId): (r: State)
    requires Wf(g) && Causal(g, s.edge) && !HasUnknown(g, s.edge, n) && Untouched(g, s.edge, n)
    ensures SkipsOnly(g, s.edge, r.edge, Leaving(g, n)) && Causal(g, r.edge)
    ensures Waiting(g, r.edge) <= Waiting(g, s.edge)
    decreases Waiting(g, s.edge), 1
  {
    assert LinkedAt(g, n);
    assert Elems(Out(g, n)) == Leaving(g, n);
    SkipEdges(g, MarkNode(s, n, Skipped), n, Out(g, n))
  }

  /** The loop of `_propagate_skip_to_node` and of `skip_branch_paths`: mark each edge,
      then propagate from it. All the edges leave the resolved node `b`. */
  function SkipEdges(g: Graph, s: State, b: NodeId, es: seq<EdgeId>): (r: State)
    requires Wf(g) && Pending(g, s.edge, b, es)
    ensures SkipsOnly(g, s.edge, r.edge, Elems(es)) && Causal(g, r.edge)
    ensures Waiting(g, r.edge) <= Waiting(g, s.edge)
    decreases Waiting(g, s.edge), 0
  {
    if es == [] then s
    else
      var s1 := MarkEdge(s, es[0], Skipped);
      MarkIsCausal(g, s.edge, b, es[0], Skipped);
      var m := SkipFromEdge(g, s1, es[0]);
      RestIsPending(g, s.edge, b, es, m.edge);
      var r := SkipEdges(g, m, b, es[1..]);
      SkipsOnlyTrans(g, s.edge, b, es, m.edge, r.edge);
      r
  }

  /** Marking an edge out of a resolved node keeps the marks causal, and leaves its head with
      no resolved out-edge: until now the edge itself kept the head waiting. */
  lemma MarkIsCausal(g: Graph, m: Marks, b: NodeId, e: EdgeId, k: Mark)
    requires Causal(g, m) && !HasUnknown(g, m, b)
    requires e in g.edges && Tail(g, e) == b && EdgeMark(m, e) == Unknown && k != Unknown
    ensures Causal(g, m[e := k]) && !HasUnknown(g, m[e := k], b)
    ensures Head(g, e) != b && HasUnknown(g, m, Head(g, e))
    ensures Untouched(g, m, Head(g, e)) && Untouched(g, m[e := k], Head(g, e))
    ensures Waiting(g, m[e := k]) == Waiting(g, m) - 1
  {
    var r := m[e := k];
    assert e in UnknownEdges(g, m) && UnknownEdges(g, r) == UnknownEdges(g, m) - {e};
    forall d | d in g.edges && EdgeMark(r, d) != Unknown
      ensures !HasUnknown(g, r, Tail(g, d))
    {
      assert !HasUnknown(g, m, Tail(g, d));
    }
  }

  /** The remaining edges of the loop are untouched by what the first one set off. */
  lemma RestIsPending(g: Graph, m: Marks, b: NodeId, es: seq<EdgeId>, r: Marks)
    requires Pending(g, m, b, es) && es != [] && Causal(g, r)
    requires SkipsOnly(g, m[es[0] := Skipped], r, Leaving(g, Head(g, es[0])))
    ensures Pending(g, r, b, es[1..])
  {
    var m1 := m[es[0] := Skipped];
    MarkIsCausal(g, m, b, es[0], Skipped);
    NoDupTail(es);
    forall e | e in g.edges && Head(g, e) == b ensures EdgeMark(r, e) != Unknown {
      assert EdgeMark(m1, e) != Unknown;
    }
    forall d | d in es[1..] ensures EdgeMark(r, d) == Unknown {
      assert EdgeMark(m1, d) == Unknown && Tail(g, d) == b;
    }
  }

  lemma SkipsOnlyTrans(g: Graph, m: Marks, b: NodeId, es: seq<EdgeId>, m2: Marks, r: Marks)
    requires Pending(g, m, b, es) && es != []
    requires SkipsOnly(g, m[es[0] := Skipped], m2, Leaving(g, Head(g, es[0])))
    requires SkipsOnly(g, m2, r, Elems(es[1..]))
    ensures SkipsOnly(g, m, r, Elems(es))
  {
    var e := es[0];
    var m1 := m[e := Skipped];
    ElemsCons(es);
    forall d | d in g.edges && EdgeMark(r, d) != EdgeMark(m, d) && d !in Elems(es)
      ensures EdgeMark(m, d) == Unknown && EdgeMark(r, d) == Skipped && HasUnknown(g, m, Tail(g, d))
    {
      assert EdgeMark(m1, d) == EdgeMark(m, d);
      var n := Tail(g, d);
      assert HasUnknown(g, m1, n) ==> HasUnknown(g, m, n);
      assert HasUnknown(g, m2, n) ==> HasUnknown(g, m1, n);
    }
  }

  // ---------- edges a finished node takes ----------

  /** `_process_taken_edge` over a list of edges: the marks afterwards and the nodes found
      ready, in order. */
  function TakeEdges(g: Graph, m: Marks, es: seq<EdgeId>): (Marks, seq<NodeId>)
    decreases |es|
  {
    if es == [] then (m, [])
    else
      var m1 := m[es[0] := Taken];
      var here := if IsReady(g, m1, Head(g, es[0])) then [Head(g, es[0])] else [];
      var (r, rest) := TakeEdges(g, m1, es[1..]);
      (r, here + rest)
  }

  /** `categorize_branch_edges`: the edges of `es` that carry (or do not carry) the handle. */
  function Categorize(g: Graph, es: seq<EdgeId>, handle: string, selected: bool): (r: seq<EdgeId>)
    decreases |es|
  {
    if es == [] then []
    else if (Handle(g, es[0]) == handle) == selected then [es[0]] + Categorize(g, es[1..], handle, selected)
    else Categorize(g, es[1..], handle, selected)
  }

  /** `_process_skipped_edge` over a list of edges. */
  function RemarkSkipped(m: Marks, es: seq<EdgeId>): Marks
    decreases |es|
  {
    if es == [] then m else RemarkSkipped(m[es[0] := Skipped], es[1..])
  }

  // ---------- what a traversal does to the whole graph ----------

  /** The last in-edge that `n` was waiting for has been resolved. */
  ghost predicate Settles(g: Graph, m: Marks, r: Marks, n: NodeId) {
    HasUnknown(g, m, n) && !HasUnknown(g, r, n)
  }

  /** ... and none of its in-edges was taken. */
  ghost predicate Dies(g: Graph, m: Marks, r: Marks, n: NodeId) {
    Settles(g, m, r, n) && !HasTaken(g, r, n)
  }

  /** The nodes that become runnable. */
  ghost function Released(g: Graph, m: Marks, r: Marks): set<NodeId> {
    set n | n in g.nodes && Settles(g, m, r, n) && HasTaken(g, r, n)
  }

  /** Resolved edges keep their mark; `take` become TAKEN, `skip` become SKIPPED; any other
      edge becomes SKIPPED exactly when its tail dies. */
  ghost predicate EdgesResolved(g: Graph, m: Marks, r: Marks, take: set<EdgeId>, skip: set<EdgeId>) {
    forall d :: d in g.edges ==>
      EdgeMark(r, d) ==
        if EdgeMark(m, d) != Unknown then EdgeMark(m, d)
        else if d in take then Taken
        else if d in skip then Skipped
        else if Dies(g, m, r, Tail(g, d)) then Skipped
        else Unknown
  }

  /** Dying nodes become SKIPPED, scheduled ones TAKEN, the others keep their mark. */
  ghost predicate NodesResolved(g: Graph, s: State, r: State, now: set<NodeId>) {
    forall n :: n in g.nodes ==>
      NodeMark(r, n) ==
        if Dies(g, s.edge, r.edge, n) then Skipped
        else if n in now then Taken
        else NodeMark(s, n)
  }

  /** What was put in the ready queue between `s` and `r`. */
  ghost function Queued(s: State, r: State): seq<NodeId> {
    if |s.queue| <= |r.queue| then r.queue[|s.queue|..] else []
  }

  /** The nodes put in the ready queue and those handed back in `ready` together list every
      released node exactly once. */
  ghost predicate ReleasedOnce(g: Graph, s: State, r: State, ready: seq<NodeId>) {
    && r.queue == s.queue + Queued(s, r)
    && r.executing == s.executing + Elems(Queued(s, r))
    && multiset(Queued(s, r)) + multiset(ready) == multiset(Released(g, s.edge, r.edge))
  }

  /** The whole effect of resolving the edges `take` and `skip`. */
  ghost predicate Resolves(g: Graph, s: State, r: State, take: set<EdgeId>, skip: set<EdgeId>, ready: seq<NodeId>) {
    && EdgesResolved(g, s.edge, r.edge, take, skip)
    && NodesResolved(g, s, r, Elems(Queued(s, r)))
    && ReleasedOnce(g, s, r, ready)
  }

  lemma SettlesSplit(g: Graph, s: Marks, m: Marks, r: Marks, t1: set<EdgeId>, k1: set<EdgeId>, t2: set<EdgeId>,
      k2: set<EdgeId>)
    requires EdgesResolved(g, s, m, t1, k1) && EdgesResolved(g, m, r, t2, k2)
    ensures forall n :: Settles(g, s, r, n) <==> Settles(g, s, m, n) || Settles(g, m, r, n)
    ensures forall n :: !(Settles(g, s, m, n) && Settles(g, m, r, n))
    ensures forall n :: !HasUnknown(g, m, n) ==> (HasTaken(g, r, n) <==> HasTaken(g, m, n))
  {
    forall n
      ensures HasUnknown(g, m, n) ==> HasUnknown(g, s, n)
      ensures HasUnknown(g, r, n) ==> HasUnknown(g, m, n)
      ensures !HasUnknown(g, m, n) ==> (HasTaken(g, r, n) <==> HasTaken(g, m, n))
    {
    }
  }

  lemma ListsReleased(now: seq<NodeId>, ready: seq<NodeId>, released: set<NodeId>)
    requires multiset(now) + multiset(ready) == multiset(released)
    ensures forall n :: n in now || n in ready <==> n in released
    ensures forall n :: !(n in now && n in ready)
  {
    forall n
      ensures n in now || n in ready <==> n in released
      ensures !(n in now && n in ready)
    {
      assert (multiset(now) + multiset(ready))[n] == multiset(released)[n] <= 1;
      assert n in now <==> multiset(now)[n] > 0;
      assert n in ready <==> multiset(ready)[n] > 0;
    }
  }

  /** Two traversals one after the other are one traversal. */
  lemma ResolvesTrans(g: Graph, s: State, m: State, r: State,
                      t1: set<EdgeId>, k1: set<EdgeId>, y1: seq<NodeId>,
                      t2: set<EdgeId>, k2: set<EdgeId>, y2: seq<NodeId>)
    requires Resolves(g, s, m, t1, k1, y1) && Resolves(g, m, r, t2, k2, y2)
    requires forall d :: d in t2 || d in k2 ==> EdgeMark(m.edge, d) == Unknown
    ensures Resolves(g, s, r, t1 + t2, k1 + k2, y1 + y2)
  {
    assert Queued(s, r) == Queued(s, m) + Queued(m, r);
    assert Elems(Queued(s, r)) == Elems(Queued(s, m)) + Elems(Queued(m, r));
    SettlesSplit(g, s.edge, m.edge, r.edge, t1, k1, t2, k2);
    EdgesResolvedTrans(g, s.edge, m.edge, r.edge, t1, k1, t2, k2);
    ReleasedTrans(g, s, m, r, y1, y2);
    NodesResolvedTrans(g, s, m, r, Elems(Queued(s, m)), Elems(Queued(m, r)));
  }

  lemma EdgesResolvedTrans(g: Graph, s: Marks, m: Marks, r: Marks, t1: set<EdgeId>, k1: set<EdgeId>, t2: set<EdgeId>,
      k2: set<EdgeId>)
    requires EdgesResolved(g, s, m, t1, k1) && EdgesResolved(g, m, r, t2, k2)
    requires forall d :: d in t2 || d in k2 ==> EdgeMark(m, d) == Unknown
    requires forall n :: Settles(g, s, r, n) <==> Settles(g, s, m, n) || Settles(g, m, r, n)
    requires forall n :: !HasUnknown(g, m, n) ==> (HasTaken(g, r, n) <==> HasTaken(g, m, n))
    ensures EdgesResolved(g, s, r, t1 + t2, k1 + k2)
  {
  }

  lemma ReleasedTrans(g: Graph, s: State, m: State, r: State, y1: seq<NodeId>, y2: seq<NodeId>)
    requires ReleasedOnce(g, s, m, y1) && ReleasedOnce(g, m, r, y2)
    requires Queued(s, r) == Queued(s, m) + Queued(m, r)
    requires Elems(Queued(s, r)) == Elems(Queued(s, m)) + Elems(Queued(m, r))
    requires forall n :: Settles(g, s.edge, r.edge, n) <==>
      Settles(g, s.edge, m.edge, n) || Settles(g, m.edge, r.edge, n)
    requires forall n :: !(Settles(g, s.edge, m.edge, n) && Settles(g, m.edge, r.edge, n))
    requires forall n :: !HasUnknown(g, m.edge, n) ==> (HasTaken(g, r.edge, n) <==> HasTaken(g, m.edge, n))
    ensures ReleasedOnce(g, s, r, y1 + y2)
    ensures Elems(Queued(s, m)) <= Released(g, s.edge, m.edge)
    ensures Elems(Queued(m, r)) <= Released(g, m.edge, r.edge)
  {
    var a, b := Released(g, s.edge, m.edge), Released(g, m.edge, r.edge);
    ListsReleased(Queued(s, m), y1, a);
    ListsReleased(Queued(m, r), y2, b);
    assert Released(g, s.edge, r.edge) == a + b;
    MultisetOfUnion(a, b, Queued(s, m), y1, Queued(m, r), y2);
  }

  lemma MultisetOfUnion(a: set<NodeId>, b: set<NodeId>, n1: seq<NodeId>, y1: seq<NodeId>, n2: seq<NodeId>,
      y2: seq<NodeId>)
    requires a !! b && multiset(n1) + multiset(y1) == multiset(a) && multiset(n2) + multiset(y2) == multiset(b)
    ensures multiset(n1 + n2) + multiset(y1 + y2) == multiset(a + b)
  {
    assert multiset(a + b) == multiset(a) + multiset(b);
  }

  lemma NodesResolvedTrans(g: Graph, s: State, m: State, r: State, n1: set<NodeId>, n2: set<NodeId>)
    requires NodesResolved(g, s, m, n1) && NodesResolved(g, m, r, n2)
    requires forall n :: Settles(g, s.edge, r.edge, n) <==>
      Settles(g, s.edge, m.edge, n) || Settles(g, m.edge, r.edge, n)
    requires forall n :: !HasUnknown(g, m.edge, n) ==> (HasTaken(g, r.edge, n) <==> HasTaken(g, m.edge, n))
    requires n1 <= Released(g, s.edge, m.edge) && n2 <= Released(g, m.edge, r.edge)
    requires forall n :: !(Settles(g, s.edge, m.edge, n) && Settles(g, m.edge, r.edge, n))
    ensures NodesResolved(g, s, r, n1 + n2)
  {
  }

  lemma NothingResolves(g: Graph, s: State)
    ensures Resolves(g, s, s, {}, {}, [])
  {
    assert Queued(s, s) == [];
    assert Released(g, s.edge, s.edge) == {};
  }

  /** Marking one edge resolves that edge and at most settles its head. */
  lemma MarkSettles(g: Graph, m: Marks, e: EdgeId, k: Mark, r: Marks)
    requires e in g.edges && EdgeMark(m, e) == Unknown && k != Unknown && r == m[e := k]
    ensures forall n :: Settles(g, m, r, n) <==> n == Head(g, e) && !HasUnknown(g, r, n)
  {
    assert HasUnknown(g, m, Head(g, e));
    forall n | n != Head(g, e) ensures HasUnknown(g, r, n) <==> HasUnknown(g, m, n) {
      assert forall c :: Head(g, c) == n ==> EdgeMark(r, c) == EdgeMark(m, c);
    }
  }

  /** If the head of a freshly marked edge does not die, marking is all there is to do; the
      head is released when this was its last unresolved in-edge. */
  lemma MarkResolves(g: Graph, s: State, e: EdgeId, k: Mark, r: State)
    requires Wf(g) && e in g.edges && EdgeMark(s.edge, e) == Unknown && k != Unknown && r == MarkEdge(s, e, k)
    requires HasUnknown(g, r.edge, Head(g, e)) || HasTaken(g, r.edge, Head(g, e))
    ensures Resolves(g, s, r, if k == Taken then {e} else {}, if k == Taken then {} else {e},
                     if HasUnknown(g, r.edge, Head(g, e)) then [] else [Head(g, e)])
  {
    MarkSettles(g, s.edge, e, k, r.edge);
    assert Queued(s, r) == [];
    assert Elems(Queued(s, r)) == {};
    assert forall n :: !Dies(g, s.edge, r.edge, n);
    assert Released(g, s.edge, r.edge) == if HasUnknown(g, r.edge, Head(g, e)) then {} else {Head(g, e)};
  }

  /** Scheduling a node that was handed back as ready. */
  lemma ScheduleResolves(g: Graph, s: State, r: State, take: set<EdgeId>, skip: set<EdgeId>, n: NodeId,
      rest: seq<NodeId>)
    requires Resolves(g, s, r, take, skip, [n] + rest)
    ensures Resolves(g, s, Schedule(r, n), take, skip, rest)
  {
    hide EdgesResolved, NodesResolved, Released;
    var q := Schedule(r, n);
    assert Queued(s, q) == Queued(s, r) + [n];
    assert Elems(Queued(s, q)) == Elems(Queued(s, r)) + {n};
    assert multiset([n] + rest) == multiset{n} + multiset(rest);
    ListsReleased(Queued(s, r), [n] + rest, Released(g, s.edge, r.edge));
    assert n in [n] + rest;
    ScheduleResolvesNodes(g, s, r, n);
  }

  lemma ScheduleResolvesNodes(g: Graph, s: State, r: State, n: NodeId)
    requires NodesResolved(g, s, r, Elems(Queued(s, r))) && n in Released(g, s.edge, r.edge)
    ensures NodesResolved(g, s, Schedule(r, n), Elems(Queued(s, r)) + {n})
  {
  }

  /** Skipping a node none of whose in-edges was taken: its own effect and that of its
      out-edges add up. */
  lemma DeadNodeResolves(g: Graph, s: State, e: EdgeId, r: State)
    requires e in g.edges && EdgeMark(s.edge, e) == Unknown && Untouched(g, s.edge, Head(g, e))
    requires Tail(g, e) != Head(g, e)
    requires !HasUnknown(g, s.edge[e := Skipped], Head(g, e)) && !HasTaken(g, s.edge[e := Skipped], Head(g, e))
    requires Resolves(g, MarkNode(MarkEdge(s, e, Skipped), Head(g, e), Skipped), r, {}, Leaving(g, Head(g, e)), [])
    ensures Resolves(g, s, r, {}, {e}, [])
  {
    var n := Head(g, e);
    var m := MarkNode(MarkEdge(s, e, Skipped), n, Skipped);
    DeadNodeDies(g, s.edge, e, m.edge, r.edge);
    assert Queued(m, r) == Queued(s, r);
    assert Released(g, s.edge, r.edge) == Released(g, m.edge, r.edge);
    ListsReleased(Queued(m, r), [], Released(g, m.edge, r.edge));
  }

  lemma DeadNodeDies(g: Graph, m: Marks, e: EdgeId, m1: Marks, r: Marks)
    requires e in g.edges && EdgeMark(m, e) == Unknown && m1 == m[e := Skipped]
    requires !HasUnknown(g, m1, Head(g, e)) && !HasTaken(g, m1, Head(g, e))
    requires EdgesResolved(g, m1, r, {}, Leaving(g, Head(g, e)))
    ensures forall k :: Dies(g, m, r, k) <==> k == Head(g, e) || Dies(g, m1, r, k)
    ensures forall k :: Settles(g, m, r, k) <==> k == Head(g, e) || Settles(g, m1, r, k)
    ensures !Settles(g, m1, r, Head(g, e))
  {
    var n := Head(g, e);
    forall k
      ensures HasUnknown(g, m, k) <==> k == n || HasUnknown(g, m1, k)
      ensures HasUnknown(g, r, k) ==> HasUnknown(g, m1, k)
      ensures !HasUnknown(g, m1, k) ==> HasTaken(g, r, k) == HasTaken(g, m1, k)
    {
    }
  }

  /** One round of the loop in `SkipEdges`. */
  lemma SkipEdgesStep(g: Graph, s: State, b: NodeId, es: seq<EdgeId>) returns (m: State)
    requires Wf(g) && Pending(g, s.edge, b, es) && es != []
    ensures es[0] in g.edges && EdgeMark(s.edge, es[0]) == Unknown && Tail(g, es[0]) != Head(g, es[0])
    ensures Causal(g, MarkEdge(s, es[0], Skipped).edge)
    ensures Untouched(g, s.edge, Head(g, es[0])) && Untouched(g, MarkEdge(s, es[0], Skipped).edge, Head(g, es[0]))
    ensures m == SkipFromEdge(g, MarkEdge(s, es[0], Skipped), es[0])
    ensures Pending(g, m.edge, b, es[1..]) && Waiting(g, m.edge) < Waiting(g, s.edge)
    ensures forall d :: d in Elems(es[1..]) ==> EdgeMark(m.edge, d) == Unknown
    ensures SkipEdges(g, s, b, es) == SkipEdges(g, m, b, es[1..])
  {
    assert es[0] in es;
    MarkIsCausal(g, s.edge, b, es[0], Skipped);
    m := SkipFromEdge(g, MarkEdge(s, es[0], Skipped), es[0]);
    RestIsPending(g, s.edge, b, es, m.edge);
  }

  lemma DeadNodeIsPending(g: Graph, s: State, e: EdgeId)
    requires Wf(g) && e in g.edges && EdgeMark(s.edge, e) == Unknown
    requires Causal(g, s.edge[e := Skipped]) && Untouched(g, s.edge[e := Skipped], Head(g, e))
    requires !HasUnknown(g, s.edge[e := Skipped], Head(g, e))
    ensures Pending(g, s.edge[e := Skipped], Head(g, e), Out(g, Head(g, e)))
    ensures Elems(Out(g, Head(g, e))) == Leaving(g, Head(g, e))
    ensures Waiting(g, s.edge[e := Skipped]) < Waiting(g, s.edge)
  {
    assert e in UnknownEdges(g, s.edge) && UnknownEdges(g, s.edge[e := Skipped]) == UnknownEdges(g, s.edge) - {e};
    assert LinkedAt(g, Head(g, e));
  }

  /** Marking an edge and propagating the skip from it resolves exactly that edge. */
  lemma {:induction false} SkipFromEdgeResolves(g: Graph, s: State, e: EdgeId)
    requires Wf(g) && e in g.edges && EdgeMark(s.edge, e) == Unknown && Tail(g, e) != Head(g, e)
    requires Causal(g, MarkEdge(s, e, Skipped).edge)
    requires Untouched(g, s.edge, Head(g, e)) && Untouched(g, MarkEdge(s, e, Skipped).edge, Head(g, e))
    ensures Resolves(g, s, SkipFromEdge(g, MarkEdge(s, e, Skipped), e), {}, {e}, [])
    decreases Waiting(g, s.edge), 0
  {
    hide Resolves;
    var s1 := MarkEdge(s, e, Skipped);
    var n := Head(g, e);
    if HasUnknown(g, s1.edge, n) {
      MarkResolves(g, s, e, Skipped, s1);
    } else if HasTaken(g, s1.edge, n) {
      MarkResolves(g, s, e, Skipped, s1);
      assert [n] + [] == [n];
      ScheduleResolves(g, s, s1, {}, {e}, n, []);
    } else {
      var m := MarkNode(s1, n, Skipped);
      DeadNodeIsPending(g, s, e);
      SkipEdgesResolves(g, m, n, Out(g, n));
      DeadNodeResolves(g, s, e, SkipEdges(g, m, n, Out(g, n)));
    }
  }

  /** Skipping the pending edges of a resolved node resolves exactly those edges. */
  lemma {:induction false} SkipEdgesResolves(g: Graph, s: State, b: NodeId, es: seq<EdgeId>)
    requires Wf(g) && Pending(g, s.edge, b, es)
    ensures Resolves(g, s, SkipEdges(g, s, b, es), {}, Elems(es), [])
    decreases Waiting(g, s.edge), 1, |es|
  {
    hide Resolves;
    var none: set<EdgeId> := {};
    if es == [] {
      NothingResolves(g, s);
      assert Elems(es) == none;
    } else {
      hide Pending, Causal, Untouched;
      var nobody: seq<NodeId> := [];
      var m := SkipEdgesStep(g, s, b, es);
      SkipFromEdgeResolves(g, s, es[0]);
      SkipEdgesResolves(g, m, b, es[1..]);
      ResolvesTrans(g, s, m, SkipEdges(g, m, b, es[1..]), none, {es[0]}, nobody, none, Elems(es[1..]), nobody);
      assert nobody + nobody == nobody;
      ElemsCons(es);
      assert none + {} == none && {es[0]} + Elems(es[1..]) == Elems(es);
    }
  }

  /** Taking the pending edges of a resolved node resolves exactly those edges, and hands back
      every node that this releases. */
  lemma {:induction false} TakeEdgesResolves(g: Graph, s: State, b: NodeId, es: seq<EdgeId>)
    requires Wf(g) && Pending(g, s.edge, b, es)
    ensures Resolves(g, s, s.(edge := TakeEdges(g, s.edge, es).0), Elems(es), {}, TakeEdges(g, s.edge, es).1)
    decreases |es|
  {
    hide Resolves;
    var none: set<EdgeId> := {};
    if es == [] {
      NothingResolves(g, s);
      assert Elems(es) == none;
    } else {
      var e := es[0];
      assert e in es;
      var m := MarkEdge(s, e, Taken);
      MarkIsCausal(g, s.edge, b, e, Taken);
      NoDupTail(es);
      var (r, rest) := TakeEdges(g, m.edge, es[1..]);
      var here := if IsReady(g, m.edge, Head(g, e)) then [Head(g, e)] else [];
      assert EdgeMark(m.edge, e) == Taken;
      MarkResolves(g, s, e, Taken, m);
      TakeEdgesResolves(g, m, b, es[1..]);
      ResolvesTrans(g, s, m, m.(edge := r), {e}, {}, here, Elems(es[1..]), {}, rest);
      ElemsCons(es);
      assert none + {} == none && {e} + Elems(es[1..]) == Elems(es);
    }
  }

  // ---------- scheduling the nodes handed back ----------

  /** The loops that enqueue ready nodes. */
  function ScheduleAll(s: State, ns: seq<NodeId>): State
    decreases |ns|
  {
    if ns == [] then s else ScheduleAll(Schedule(s, ns[0]), ns[1..])
  }

  lemma {:induction false} ScheduleAllResolves(g: Graph, s: State, r: State, take: set<EdgeId>, skip: set<EdgeId>,
      ready: seq<NodeId>)
    requires Resolves(g, s, r, take, skip, ready)
    ensures Resolves(g, s, ScheduleAll(r, ready), take, skip, [])
    decreases |ready|
  {
    hide Resolves;
    if ready != [] {
      assert [ready[0]] + ready[1..] == ready;
      ScheduleResolves(g, s, r, take, skip, ready[0], ready[1..]);
      ScheduleAllResolves(g, s, Schedule(r, ready[0]), take, skip, ready[1..]);
    }
  }

  lemma {:induction false} ScheduleAllEffect(s: State, ns: seq<NodeId>)
    ensures ScheduleAll(s, ns).edge == s.edge
    ensures ScheduleAll(s, ns).queue == s.queue + ns
    ensures ScheduleAll(s, ns).executing == s.executing + Elems(ns)
    ensures forall n :: NodeMark(ScheduleAll(s, ns), n) == if n in Elems(ns) then Taken else NodeMark(s, n)
    decreases |ns|
  {
    if ns != [] {
      ElemsCons(ns);
      ScheduleAllEffect(Schedule(s, ns[0]), ns[1..]);
      assert (s.queue + [ns[0]]) + ns[1..] == s.queue + ns;
    } else {
      assert Elems(ns) == {};
    }
  }
}
