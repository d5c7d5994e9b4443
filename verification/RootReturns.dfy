/** When `_mark_inactive_root_branches` returns, on any graph (graph.py): exactly when no loop is
    left without an entry that stays open. */
module RootReturns {
  import opened Templates
  import opened Graphs
  import opened Traversal
  import opened Marking
  import opened Scheduler
  import opened Runs
  import opened GraphInit
  import opened RootBranches

  ghost predicate TailsIn(g: Graph, k: set<NodeId>, n: NodeId) {
    forall e :: e in g.edges && Head(g, e) == n ==> Tail(g, e) in k
  }

  /** `k` holds the inactive roots and the nodes that only nodes of `k` lead to, and no others. */
  ghost predicate Solution(g: Graph, inactive: set<NodeId>, k: set<NodeId>) {
    forall n :: n in k <==> n in inactive || (!IsSource(g, n) && TailsIn(g, k, n))
  }

  /** Every node of `c` has an edge to a node of `c`. */
  ghost predicate Onward(g: Graph, c: set<NodeId>) {
    forall n :: n in c ==> Leads(g, n, c)
  }

  ghost predicate Leads(g: Graph, n: NodeId, c: set<NodeId>) {
    exists e :: e in g.edges && Tail(g, e) == n && Head(g, e) in c
  }

  /** A loop, or several, that only nodes of `k` lead to. */
  ghost predicate Trap(g: Graph, k: set<NodeId>, c: set<NodeId>) {
    c != {} && Onward(g, c) && forall n :: n in c ==> !IsSource(g, n) && TailsIn(g, k, n)
  }

  ghost predicate NoTrap(g: Graph, k: set<NodeId>) {
    forall c :: !Trap(g, k, c)
  }

  // ---------- a trap is never left ----------

  ghost predicate Shut(g: Graph, s: State, c: set<NodeId>) {
    forall n :: n in c ==> AllSkipped(g, s.edge, n)
  }

  lemma {:induction false} DownstreamKeeps(g: Graph, s: State, n: NodeId, depth: nat)
    requires Downstream(g, s, n, depth).Some?
    ensures forall d :: EdgeMark(s.edge, d) == Skipped ==> EdgeMark(Downstream(g, s, n, depth).value.edge, d) == Skipped
    decreases depth, 0
  {
    if NodeMark(s, n) == Skipped { DownstreamEachKeeps(g, s, Out(g, n), depth - 1); }
  }

  lemma {:induction false} DownstreamEachKeeps(g: Graph, s: State, es: seq<EdgeId>, depth: nat)
    requires DownstreamEach(g, s, es, depth).Some?
    ensures forall d :: EdgeMark(s.edge, d) == Skipped ==>
      EdgeMark(DownstreamEach(g, s, es, depth).value.edge, d) == Skipped
    decreases depth, 1, |es|
  {
    if es != [] {
      var s1 := MarkEdge(s, es[0], Skipped);
      var target := Head(g, es[0]);
      if AllSkipped(g, s1.edge, target) {
        var s2 := MarkNode(s1, target, Skipped);
        DownstreamKeeps(g, s2, target, depth);
        DownstreamEachKeeps(g, Downstream(g, s2, target, depth).value, es[1..], depth);
      } else {
        DownstreamEachKeeps(g, s1, es[1..], depth);
      }
    }
  }

  /** Once every edge into the trap is skipped, a call inside it never returns. */
  lemma {:induction false} ShutDiverges(g: Graph, s: State, n: NodeId, c: set<NodeId>, depth: nat)
    requires Linked(g) && Onward(g, c) && Shut(g, s, c) && n in c && NodeMark(s, n) == Skipped
    ensures Downstream(g, s, n, depth) == None
    decreases depth, 0
  {
    hide Shut, AllSkipped, DownstreamEach;
    if depth > 0 {
      var e := Exit(g, n, c);
      ShutEachDiverges(g, s, Out(g, n), e, c, depth - 1);
    }
  }

  lemma Exit(g: Graph, n: NodeId, c: set<NodeId>) returns (e: EdgeId)
    requires Linked(g) && Onward(g, c) && n in c
    ensures e in Out(g, n) && Head(g, e) in c
  {
    assert Leads(g, n, c);
    e :| e in g.edges && Tail(g, e) == n && Head(g, e) in c;
    assert LinkedAt(g, n);
  }

  lemma {:induction false} ShutEachDiverges(g: Graph, s: State, es: seq<EdgeId>, e: EdgeId, c: set<NodeId>, depth: nat)
    requires Linked(g) && Onward(g, c) && Shut(g, s, c) && e in es && Head(g, e) in c
    ensures DownstreamEach(g, s, es, depth) == None
    decreases depth, 1, |es|
  {
    hide Onward;
    var s1 := MarkEdge(s, es[0], Skipped);
    var target := Head(g, es[0]);
    var s2 := MarkNode(s1, target, Skipped);
    assert Shut(g, s1, c) && Shut(g, s2, c);
    if es[0] == e {
      assert AllSkipped(g, s1.edge, target);
      ShutDiverges(g, s2, target, c, depth);
    } else if !AllSkipped(g, s1.edge, target) {
      ShutEachDiverges(g, s1, es[1..], e, c, depth);
    } else if Downstream(g, s2, target, depth).Some? {
      DownstreamKeeps(g, s2, target, depth);
      ShutEachDiverges(g, Downstream(g, s2, target, depth).value, es[1..], e, c, depth);
    }
  }

  /** A call that returns has left some edge into the trap open. */
  lemma {:induction false} StaysOpen(g: Graph, s: State, n: NodeId, c: set<NodeId>, depth: nat)
    requires Linked(g) && Onward(g, c) && !Shut(g, s, c) && Downstream(g, s, n, depth).Some?
    ensures !Shut(g, Downstream(g, s, n, depth).value, c)
    decreases depth, 0
  {
    hide Shut, Onward, Linked;
    if NodeMark(s, n) == Skipped { StaysOpenEach(g, s, Out(g, n), c, depth - 1); }
  }

  lemma {:induction false} StaysOpenEach(g: Graph, s: State, es: seq<EdgeId>, c: set<NodeId>, depth: nat)
    requires Linked(g) && Onward(g, c) && !Shut(g, s, c) && DownstreamEach(g, s, es, depth).Some?
    ensures !Shut(g, DownstreamEach(g, s, es, depth).value, c)
    decreases depth, 1, |es|
  {
    hide Onward, Linked, AllSkipped, Shut;
    if es != [] {
      var s1 := MarkEdge(s, es[0], Skipped);
      var target := Head(g, es[0]);
      if AllSkipped(g, s1.edge, target) {
        var s2 := MarkNode(s1, target, Skipped);
        ShutsAtHead(g, s, es[0], c);
        if Shut(g, s2, c) { ShutDiverges(g, s2, target, c, depth); }
        StaysOpen(g, s2, target, c, depth);
        StaysOpenEach(g, Downstream(g, s2, target, depth).value, es[1..], c, depth);
      } else {
        ShutsAtHead(g, s, es[0], c);
        StaysOpenEach(g, s1, es[1..], c, depth);
      }
    }
  }

  /** Only the head of an edge is affected when the edge is marked. */
  lemma ShutsAtHead(g: Graph, s: State, e: EdgeId, c: set<NodeId>)
    requires !Shut(g, s, c)
    ensures var s1 := MarkEdge(s, e, Skipped);
      && Shut(g, s1, c) == Shut(g, MarkNode(s1, Head(g, e), Skipped), c)
      && (Shut(g, s1, c) ==> Head(g, e) in c && AllSkipped(g, s1.edge, Head(g, e)))
  {
    var s1 := MarkEdge(s, e, Skipped);
    var n :| n in c && !AllSkipped(g, s.edge, n);
    var d :| d in g.edges && Head(g, d) == n && EdgeMark(s.edge, d) != Skipped;
    if Shut(g, s1, c) { assert AllSkipped(g, s1.edge, n); }
  }

  lemma {:induction false} RootsStayOpen(g: Graph, s: State, roots: seq<NodeId>, c: set<NodeId>, depth: nat)
    requires Linked(g) && Onward(g, c) && !Shut(g, s, c) && DownstreamRoots(g, s, roots, depth).Some?
    ensures !Shut(g, DownstreamRoots(g, s, roots, depth).value, c)
    decreases |roots|
  {
    hide Shut, Onward, Linked, Downstream;
    if roots != [] {
      StaysOpen(g, s, roots[0], c, depth);
      RootsStayOpen(g, Downstream(g, s, roots[0], depth).value, roots[1..], c, depth);
    }
  }

  ghost function SkippedNodes(g: Graph, r: State): set<NodeId> { set n | n in g.nodes && NodeMark(r, n) == Skipped }

  /** Every edge joins nodes of the graph. */
  ghost predicate Endpoints(g: Graph) {
    forall e :: e in g.edges ==> Tail(g, e) in g.nodes && Head(g, e) in g.nodes
  }

  lemma TailsAreSkips(g: Graph, inactive: set<NodeId>, r: State, n: NodeId)
    requires Marked(g, inactive, r) && Endpoints(g)
    ensures TailsIn(g, SkippedNodes(g, r), n) <==> AllSkipped(g, r.edge, n)
  {
    forall e | e in g.edges && Head(g, e) == n
      ensures EdgeMark(r.edge, e) == Skipped <==> Tail(g, e) in SkippedNodes(g, r)
    {
      assert MarkedEdge(g, r, e);
    }
  }

  lemma MarkedIsSolution(g: Graph, inactive: set<NodeId>, r: State)
    requires Marked(g, inactive, r) && Endpoints(g) && inactive <= g.nodes.Keys
    ensures Solution(g, inactive, SkippedNodes(g, r))
  {
    var k := SkippedNodes(g, r);
    forall n ensures n in k <==> n in inactive || (!IsSource(g, n) && TailsIn(g, k, n)) {
      assert SkipOk(g, r, inactive, n);
      TailsAreSkips(g, inactive, r, n);
    }
  }

  /** When the marking returns, its SKIPPED nodes leave no trap. */
  lemma ReturnedHasNoTrap(g: Graph, order: seq<NodeId>, depth: nat)
    requires Linked(g) && Endpoints(g) && Elems(order) <= g.nodes.Keys && MarkAll(g, order, depth).Some?
    ensures var k := SkippedNodes(g, MarkAll(g, order, depth).value);
      Solution(g, Elems(InactiveRoots(g, order)), k) && NoTrap(g, k)
  {
    hide Solution, Marked, Onward, Linked, DownstreamRoots;
    var roots := InactiveRoots(g, order);
    var s := SkipNodes(BLANK, roots);
    var r := MarkAll(g, order, depth).value;
    InactiveAreNodes(g, order);
    MarkedWhenReturned(g, order, depth);
    MarkedIsSolution(g, Elems(roots), r);
    forall c ensures !Trap(g, SkippedNodes(g, r), c) {
      if Trap(g, SkippedNodes(g, r), c) {
        BlankIsOpen(g, s, c);
        RootsStayOpen(g, s, roots, c, depth);
        forall n | n in c ensures AllSkipped(g, r.edge, n) { TailsAreSkips(g, Elems(roots), r, n); }
        assert false;
      }
    }
  }

  lemma InactiveAreNodes(g: Graph, order: seq<NodeId>)
    requires Elems(order) <= g.nodes.Keys
    ensures Elems(InactiveRoots(g, order)) <= Elems(order)
  {
  }

  lemma BlankIsOpen(g: Graph, s: State, c: set<NodeId>)
    requires c != {} && s.edge == map[] && forall n :: n in c ==> !IsSource(g, n)
    ensures !Shut(g, s, c)
  {
    var n :| n in c;
    var e :| e in g.edges && Head(g, e) == n;
    assert EdgeMark(s.edge, e) == Unknown && !AllSkipped(g, s.edge, n);
  }

  // ---------- without a trap it returns ----------

  /** Nothing outside `k` is marked. */
  ghost predicate Within(g: Graph, k: set<NodeId>, s: State) {
    && (forall n :: NodeMark(s, n) == Skipped ==> n in k)
    && (forall d :: d in g.edges && EdgeMark(s.edge, d) == Skipped ==> Tail(g, d) in k)
  }

  /** The nodes that only nodes of `k` lead to: those the recursion can enter. */
  ghost function Enterable(g: Graph, k: set<NodeId>): set<NodeId> {
    set n | n in g.nodes && !IsSource(g, n) && TailsIn(g, k, n)
  }

  /** The calls under way: each has an edge to the next, the last one is at `n`. */
  ghost predicate Chain(g: Graph, k: set<NodeId>, stack: set<NodeId>, n: NodeId) {
    && stack <= Enterable(g, k)
    && (forall b :: b in stack && b != n ==> Leads(g, b, stack))
    && (n in Enterable(g, k) ==> n in stack)
    && (n !in Enterable(g, k) ==> stack == {})
  }

  lemma LeadsMore(g: Graph, n: NodeId, c: set<NodeId>, d: set<NodeId>)
    requires Leads(g, n, c) && c <= d
    ensures Leads(g, n, d)
  {
  }

  /** A node about to be entered is not under way already. */
  lemma Advances(g: Graph, k: set<NodeId>, stack: set<NodeId>, n: NodeId, e: EdgeId)
    requires NoTrap(g, k) && Chain(g, k, stack, n) && e in g.edges && Tail(g, e) == n && Head(g, e) in Enterable(g, k)
    ensures Head(g, e) !in stack && Chain(g, k, stack + {Head(g, e)}, Head(g, e))
    ensures |stack| < |Enterable(g, k)|
  {
    hide Leads, Enterable, NoTrap;
    var h := Head(g, e);
    var longer := stack + {h};
    AllLead(g, k, stack, n, e);
    if h in stack {
      assert longer == stack;
      StackIsTrap(g, k, stack);
      assert false;
    }
    Fewer(longer, Enterable(g, k));
  }

  lemma AllLead(g: Graph, k: set<NodeId>, stack: set<NodeId>, n: NodeId, e: EdgeId)
    requires Chain(g, k, stack, n) && e in g.edges && Tail(g, e) == n
    ensures forall b :: b in stack ==> Leads(g, b, stack + {Head(g, e)})
  {
    hide Enterable;
    assert Leads(g, n, stack + {Head(g, e)});
    hide Leads;
    forall b | b in stack ensures Leads(g, b, stack + {Head(g, e)}) {
      if b != n { LeadsMore(g, b, stack, stack + {Head(g, e)}); }
    }
  }

  lemma StackIsTrap(g: Graph, k: set<NodeId>, stack: set<NodeId>)
    requires stack != {} && stack <= Enterable(g, k) && forall b :: b in stack ==> Leads(g, b, stack)
    ensures !NoTrap(g, k)
  {
    hide Leads, TailsIn, IsSource;
    assert Trap(g, k, stack);
  }

  lemma {:induction false} Fewer<T>(a: set<T>, b: set<T>)
    requires a <= b
    ensures |a| <= |b|
    decreases |a|
  {
    if a != {} {
      var x :| x in a;
      Fewer(a - {x}, b - {x});
    }
  }

  lemma {:induction false} WithinReturns(g: Graph, inactive: set<NodeId>, k: set<NodeId>, s: State, n: NodeId,
      stack: set<NodeId>, depth: nat)
    requires Linked(g) && Endpoints(g) && Solution(g, inactive, k) && NoTrap(g, k)
    requires Within(g, k, s) && n in k && Chain(g, k, stack, n) && depth + |stack| > |Enterable(g, k)| + 1
    ensures Downstream(g, s, n, depth).Some? && Within(g, k, Downstream(g, s, n, depth).value)
    decreases depth, 0
  {
    hide Solution, NoTrap, Chain, Within;
    ChainIsShort(g, k, stack, n);
    if NodeMark(s, n) == Skipped {
      assert LinkedAt(g, n);
      WithinEachReturns(g, inactive, k, s, n, Out(g, n), stack, depth - 1);
    }
  }

  lemma ChainIsShort(g: Graph, k: set<NodeId>, stack: set<NodeId>, n: NodeId)
    requires Chain(g, k, stack, n)
    ensures |stack| <= |Enterable(g, k)|
  {
    Fewer(stack, Enterable(g, k));
  }

  lemma {:induction false} WithinEachReturns(g: Graph, inactive: set<NodeId>, k: set<NodeId>, s: State, b: NodeId,
      es: seq<EdgeId>, stack: set<NodeId>, depth: nat)
    requires Linked(g) && Endpoints(g) && Solution(g, inactive, k) && NoTrap(g, k)
    requires Within(g, k, s) && b in k && Chain(g, k, stack, b) && depth + |stack| > |Enterable(g, k)|
    requires forall e :: e in es ==> e in g.edges && Tail(g, e) == b
    ensures DownstreamEach(g, s, es, depth).Some? && Within(g, k, DownstreamEach(g, s, es, depth).value)
    decreases depth, 1, |es|
  {
    hide NoTrap, Chain, Linked, Within, AllSkipped, Endpoints;
    if es != [] {
      var e := es[0];
      assert e in es && forall d :: d in es[1..] ==> d in es;
      var s1 := MarkEdge(s, e, Skipped);
      var h := Head(g, e);
      WithinStep(g, inactive, k, s, e);
      var m := s1;
      if AllSkipped(g, s1.edge, h) {
        var s2 := MarkNode(s1, h, Skipped);
        Advances(g, k, stack, b, e);
        WithinReturns(g, inactive, k, s2, h, stack + {h}, depth);
        m := Downstream(g, s2, h, depth).value;
      }
      WithinEachReturns(g, inactive, k, m, b, es[1..], stack, depth);
    }
  }

  lemma WithinStep(g: Graph, inactive: set<NodeId>, k: set<NodeId>, s: State, e: EdgeId)
    requires Endpoints(g) && Solution(g, inactive, k) && Within(g, k, s) && e in g.edges && Tail(g, e) in k
    ensures var s1 := MarkEdge(s, e, Skipped);
      && Within(g, k, s1)
      && (AllSkipped(g, s1.edge, Head(g, e)) ==>
        Head(g, e) in Enterable(g, k) && Head(g, e) in k && Within(g, k, MarkNode(s1, Head(g, e), Skipped)))
  {
    var s1 := MarkEdge(s, e, Skipped);
    var h := Head(g, e);
    assert !IsSource(g, h);
    assert Within(g, k, s1);
    if AllSkipped(g, s1.edge, h) {
      assert TailsIn(g, k, h);
      assert h in k;
    }
  }

  lemma {:induction false} RootsWithinReturn(g: Graph, inactive: set<NodeId>, k: set<NodeId>, s: State,
      roots: seq<NodeId>, depth: nat)
    requires Linked(g) && Endpoints(g) && Solution(g, inactive, k) && NoTrap(g, k)
    requires Within(g, k, s) && (forall n :: n in roots ==> n in inactive) && depth > |Enterable(g, k)| + 1
    ensures DownstreamRoots(g, s, roots, depth).Some?
    decreases |roots|
  {
    hide NoTrap, Linked, Within, Endpoints, Downstream;
    if roots != [] {
      var n := roots[0];
      assert n in roots && forall b :: b in roots[1..] ==> b in roots;
      var stack := if n in Enterable(g, k) then {n} else {};
      WithinReturns(g, inactive, k, s, n, stack, depth);
      RootsWithinReturn(g, inactive, k, Downstream(g, s, n, depth).value, roots[1..], depth);
    }
  }

  /** The marking returns, on any graph, exactly when the nodes to be skipped form no trap; it is
      then no deeper than the graph has nodes. */
  lemma ReturnsIffNoTrap(g: Graph, order: seq<NodeId>, depth: nat)
    requires Linked(g) && Endpoints(g) && Elems(order) <= g.nodes.Keys && depth >= |g.nodes| + 2
    ensures MarkAll(g, order, depth).Some? <==>
      exists k :: Solution(g, Elems(InactiveRoots(g, order)), k) && NoTrap(g, k)
  {
    hide Solution, NoTrap, InactiveRoots, DownstreamRoots, Linked, Endpoints;
    var roots := InactiveRoots(g, order);
    var inactive := Elems(roots);
    if MarkAll(g, order, depth).Some? {
      ReturnedHasNoTrap(g, order, depth);
    }
    forall k | Solution(g, inactive, k) && NoTrap(g, k) ensures MarkAll(g, order, depth).Some? {
      Fewer(Enterable(g, k), g.nodes.Keys);
      RootsAreWithin(g, roots, k);
      RootsWithinReturn(g, inactive, k, SkipNodes(BLANK, roots), roots, depth);
    }
  }

  lemma RootsAreWithin(g: Graph, roots: seq<NodeId>, k: set<NodeId>)
    requires Solution(g, Elems(roots), k)
    ensures Within(g, k, SkipNodes(BLANK, roots))
  {
  }

  // ---------- where no edge enters a ROOT node ----------

  lemma {:induction false} DownstreamIsMark(g: Graph, s: State, n: NodeId, depth: nat)
    requires Wf(g) && NoTaken(g, s.edge) && Causal(g, s.edge) && !HasUnknown(g, s.edge, n) && Untouched(g, s.edge, n)
    requires depth > Waiting(g, s.edge)
    ensures Downstream(g, s, n, depth) == Some(MarkDownstream(g, s, n))
    decreases depth, 0
  {
    assert LinkedAt(g, n);
    if NodeMark(s, n) == Skipped { DownstreamEachIsMark(g, s, n, Out(g, n), depth - 1); }
  }

  lemma {:induction false} DownstreamEachIsMark(g: Graph, s: State, b: NodeId, es: seq<EdgeId>, depth: nat)
    requires Wf(g) && NoTaken(g, s.edge) && Pending(g, s.edge, b, es) && depth >= Waiting(g, s.edge)
    ensures DownstreamEach(g, s, es, depth) == Some(MarkDownstreamEdges(g, s, b, es))
    decreases depth, 1, |es|
  {
    if es != [] {
      assert es[0] in es;
      var s1 := MarkEdge(s, es[0], Skipped);
      var target := Head(g, es[0]);
      MarkIsCausal(g, s.edge, b, es[0], Skipped);
      var s2 := if AllSkipped(g, s1.edge, target) then MarkDownstream(g, MarkNode(s1, target, Skipped), target) else s1;
      if AllSkipped(g, s1.edge, target) { DownstreamIsMark(g, MarkNode(s1, target, Skipped), target, depth); }
      DownstreamIsSkip(g, s1, es[0], s2);
      RestIsPending(g, s.edge, b, es, s2.edge);
      DownstreamEachIsMark(g, s2, b, es[1..], depth);
    }
  }

  lemma WaitingIsBounded(g: Graph, m: Marks)
    ensures Waiting(g, m) <= |g.edges|
  {
    Fewer(UnknownEdges(g, m), g.edges.Keys);
  }

  lemma {:induction false} RootsAreMarkRoots(g: Graph, inactive: set<NodeId>, s: State, roots: seq<NodeId>, depth: nat)
    requires Wf(g) && PartlyFresh(g, inactive, s, Elems(roots)) && NoDup(roots) && depth > |g.edges|
    ensures DownstreamRoots(g, s, roots, depth) == Some(MarkRoots(g, inactive, s, roots))
    decreases |roots|
  {
    hide PartlyFresh, Downstream, GraphInit.MarkDownstream, Wf, Causal, Untouched, NoTaken, NoDup;
    if roots != [] {
      ElemsCons(roots);
      NoDupTail(roots);
      PartlyFreshIsPending(g, inactive, s, Elems(roots), roots[0]);
      WaitingIsBounded(g, s.edge);
      DownstreamIsMark(g, s, roots[0], depth);
      var m := MarkDownstream(g, s, roots[0]);
      RootIsProcessed(g, inactive, s, roots, m);
      RootsAreMarkRoots(g, inactive, m, roots[1..], depth);
    }
  }

  /** Without edges into ROOT nodes the bounded marking is the marking that runs start from. */
  lemma MarkAllIsMarkInactive(g: Graph, order: seq<NodeId>, depth: nat)
    requires Wf(g) && RootsAreSources(g) && NoDup(order) && Elems(order) == g.nodes.Keys && depth > |g.edges|
    ensures MarkAll(g, order, depth) == Some(MarkInactiveRoots(g, order))
    ensures Fresh(g, Elems(InactiveRoots(g, order)), MarkAll(g, order, depth).value)
  {
    hide PartlyFresh, InactiveRoots, DownstreamRoots, MarkRoots, Wf, Fresh;
    var roots := InactiveRoots(g, order);
    InactiveRootsAreFresh(g, order);
    RootsAreMarkRoots(g, Elems(roots), SkipNodes(BLANK, roots), roots, depth);
  }

  // ---------- an example ----------

  function Bare(kind: ExecutionType): Node { Node(kind, Abort, false, 0, {}, []) }

  /** Two ROOT nodes, the inactive one, `r`, on a loop. */
  function Loop(root: NodeId, r: NodeId, x: NodeId, rx: EdgeId, xr: EdgeId): Graph {
    Graph(map[root := Bare(Root), r := Bare(Root), x := Bare(Executable)],
          map[rx := Edge(r, x, "source"), xr := Edge(x, r, "source")],
          map[x := [rx], r := [xr]], map[r := [rx], x := [xr]], root)
  }

  lemma LoopIsLinked(root: NodeId, r: NodeId, x: NodeId, rx: EdgeId, xr: EdgeId)
    requires root != r && root != x && r != x && rx != xr
    ensures Linked(Loop(root, r, x, rx, xr)) && Endpoints(Loop(root, r, x, rx, xr))
  {
    var g := Loop(root, r, x, rx, xr);
    assert rx in g.edges && xr in g.edges && forall e :: e in g.edges ==> e == rx || e == xr;
    assert Tail(g, rx) == r && Head(g, rx) == x && Tail(g, xr) == x && Head(g, xr) == r;
    forall n ensures LinkedAt(g, n) {
      assert Out(g, n) == if n == r then [rx] else if n == x then [xr] else [];
      assert In(g, n) == if n == r then [xr] else if n == x then [rx] else [];
      hide Loop, Out, In;
      assert multiset(Out(g, n)) <= multiset{rx, xr};
    }
  }

  lemma LoopNodes(root: NodeId, r: NodeId, x: NodeId, rx: EdgeId, xr: EdgeId)
    ensures Elems([root, r, x]) <= Loop(root, r, x, rx, xr).nodes.Keys
  {
  }

  lemma LoopKinds(root: NodeId, r: NodeId, x: NodeId, rx: EdgeId, xr: EdgeId)
    requires root != r && root != x && r != x
    ensures var g := Loop(root, r, x, rx, xr);
      Kind(g, root) == Root && Kind(g, r) == Root && Kind(g, x) == Executable && g.root == root
  {
  }

  lemma LoopRoots(root: NodeId, r: NodeId, x: NodeId, rx: EdgeId, xr: EdgeId)
    requires root != r && root != x && r != x && rx != xr
    ensures Elems(InactiveRoots(Loop(root, r, x, rx, xr), [root, r, x])) == {r}
  {
    hide *;
    var g := Loop(root, r, x, rx, xr);
    var order := [root, r, x];
    assert order[0] == root && order[1] == r;
    LoopKinds(root, r, x, rx, xr);
    OthersAreInactive(g, order, r);
    OnlyMember(InactiveRoots(g, order), r);
  }

  /** The inactive ROOT node leads to itself: the recursion never returns. */
  lemma LoopNeverReturns(root: NodeId, r: NodeId, x: NodeId, rx: EdgeId, xr: EdgeId, depth: nat)
    requires root != r && root != x && r != x && rx != xr
    ensures MarkAll(Loop(root, r, x, rx, xr), [root, r, x], depth) == None
  {
    hide *;
    var g := Loop(root, r, x, rx, xr);
    LoopIsLinked(root, r, x, rx, xr);
    LoopRoots(root, r, x, rx, xr);
    LoopNodes(root, r, x, rx, xr);
    if MarkAll(g, [root, r, x], depth).Some? {
      ReturnedHasNoTrap(g, [root, r, x], depth);
      LoopIsTrap(root, r, x, rx, xr, SkippedNodes(g, MarkAll(g, [root, r, x], depth).value));
    }
  }

  lemma LoopIsTrap(root: NodeId, r: NodeId, x: NodeId, rx: EdgeId, xr: EdgeId, k: set<NodeId>)
    requires root != r && root != x && r != x && rx != xr
    requires Solution(Loop(root, r, x, rx, xr), {r}, k)
    ensures !NoTrap(Loop(root, r, x, rx, xr), k)
  {
    var g := Loop(root, r, x, rx, xr);
    assert rx in g.edges && xr in g.edges && forall e :: e in g.edges ==> e == rx || e == xr;
    assert Tail(g, rx) == r && Head(g, rx) == x && Tail(g, xr) == x && Head(g, xr) == r;
    hide Loop;
    assert r in k && TailsIn(g, k, x) && x in k && TailsIn(g, k, r);
    assert Leads(g, r, {r, x}) && Leads(g, x, {r, x});
    assert Trap(g, k, {r, x});
  }
}
