/** `_mark_inactive_root_branches` on any graph, with the depth of its recursion bounded as the
    interpreter bounds it (graph.py): what it marks whenever it returns, when it returns, and what
    that is worth when a ROOT node has in-edges. */
module RootBranches {
  import opened Templates
  import opened Graphs
  import opened Traversal
  import opened Marking
  import opened Scheduler
  import opened Runs
  import opened Walks
  import opened Paths
  import opened GraphInit

  /** `mark_downstream`; None when the recursion goes deeper than `depth`. */
  function Downstream(g: Graph, s: State, n: NodeId, depth: nat): Option<State>
    decreases depth, 0
  {
    if depth == 0 then None
    else if NodeMark(s, n) != Skipped then Some(s)
    else DownstreamEach(g, s, Out(g, n), depth - 1)
  }

  /** Its loop over out-edges. */
  function DownstreamEach(g: Graph, s: State, es: seq<EdgeId>, depth: nat): Option<State>
    decreases depth, 1, |es|
  {
    if es == [] then Some(s)
    else
      var s1 := MarkEdge(s, es[0], Skipped);
      var target := Head(g, es[0]);
      var s2 := if AllSkipped(g, s1.edge, target) then Downstream(g, MarkNode(s1, target, Skipped), target, depth)
        else Some(s1);
      if s2.None? then None else DownstreamEach(g, s2.value, es[1..], depth)
  }

  /** The last loop. */
  function DownstreamRoots(g: Graph, s: State, roots: seq<NodeId>, depth: nat): Option<State>
    decreases |roots|
  {
    if roots == [] then Some(s)
    else
      var r := Downstream(g, s, roots[0], depth);
      if r.None? then None else DownstreamRoots(g, r.value, roots[1..], depth)
  }

  // ---------- what is marked ----------

  ghost predicate SoundEdge(g: Graph, s: State, d: EdgeId) {
    EdgeMark(s.edge, d) != Taken && (EdgeMark(s.edge, d) == Skipped ==> NodeMark(s, Tail(g, d)) == Skipped)
  }

  ghost predicate SoundNode(g: Graph, inactive: set<NodeId>, s: State, n: NodeId) {
    && NodeMark(s, n) != Taken
    && (NodeMark(s, n) == Skipped ==> n in inactive || (!IsSource(g, n) && AllSkipped(g, s.edge, n)))
  }

  /** Nothing is marked without a reason. */
  ghost predicate Sound(g: Graph, inactive: set<NodeId>, s: State) {
    (forall d :: d in g.edges ==> SoundEdge(g, s, d)) && (forall n :: SoundNode(g, inactive, s, n))
  }

  /** A node all of whose in-edges are skipped is skipped. */
  ghost predicate Complete(g: Graph, s: State) {
    forall n :: !IsSource(g, n) && AllSkipped(g, s.edge, n) ==> NodeMark(s, n) == Skipped
  }

  /** All out-edges of the node are skipped. */
  ghost predicate Done(g: Graph, s: State, n: NodeId) {
    forall d :: d in g.edges && Tail(g, d) == n ==> EdgeMark(s.edge, d) == Skipped
  }

  /** Marks stay, and whatever node was skipped since has had its out-edges skipped. */
  ghost predicate Progress(g: Graph, s: State, r: State) {
    && r.queue == s.queue && r.executing == s.executing
    && (forall n :: NodeMark(s, n) == Skipped ==> NodeMark(r, n) == Skipped)
    && (forall d :: EdgeMark(s.edge, d) == Skipped ==> EdgeMark(r.edge, d) == Skipped)
    && (forall n :: NodeMark(r, n) == Skipped && NodeMark(s, n) != Skipped ==> Done(g, r, n))
  }

  lemma ProgressTrans(g: Graph, s: State, m: State, r: State)
    requires Progress(g, s, m) && Progress(g, m, r)
    ensures Progress(g, s, r)
  {
    forall n | NodeMark(r, n) == Skipped && NodeMark(s, n) != Skipped ensures Done(g, r, n) {
      if NodeMark(m, n) == Skipped { assert Done(g, m, n); }
    }
  }

  /** Marking an edge out of a skipped node, while its head still has others. */
  lemma MarkEdgeSound(g: Graph, inactive: set<NodeId>, s: State, e: EdgeId)
    requires Sound(g, inactive, s) && Complete(g, s) && e in g.edges && NodeMark(s, Tail(g, e)) == Skipped
    ensures var s1 := MarkEdge(s, e, Skipped);
      && Sound(g, inactive, s1)
      && (forall n :: n != Head(g, e) && !IsSource(g, n) && AllSkipped(g, s1.edge, n) ==> NodeMark(s1, n) == Skipped)
  {
    var s1 := MarkEdge(s, e, Skipped);
    forall d | d in g.edges ensures SoundEdge(g, s1, d) { assert SoundEdge(g, s, d); }
    forall n ensures SoundNode(g, inactive, s1, n) {
      assert SoundNode(g, inactive, s, n);
      assert AllSkipped(g, s.edge, n) ==> AllSkipped(g, s1.edge, n);
    }
    forall n | n != Head(g, e) && !IsSource(g, n) && AllSkipped(g, s1.edge, n) ensures NodeMark(s1, n) == Skipped {
      assert AllSkipped(g, s.edge, n);
    }
  }

  /** ... and when it was the last one. */
  lemma MarkHeadSound(g: Graph, inactive: set<NodeId>, s1: State, e: EdgeId)
    requires Sound(g, inactive, s1) && e in g.edges && AllSkipped(g, s1.edge, Head(g, e))
    requires forall n :: n != Head(g, e) && !IsSource(g, n) && AllSkipped(g, s1.edge, n) ==> NodeMark(s1, n) == Skipped
    ensures var s2 := MarkNode(s1, Head(g, e), Skipped); Sound(g, inactive, s2) && Complete(g, s2)
  {
    var s2 := MarkNode(s1, Head(g, e), Skipped);
    forall d | d in g.edges ensures SoundEdge(g, s2, d) { assert SoundEdge(g, s1, d); }
    forall n ensures SoundNode(g, inactive, s2, n) { assert SoundNode(g, inactive, s1, n); }
  }

  lemma {:induction false} DownstreamMarks(g: Graph, inactive: set<NodeId>, s: State, n: NodeId, depth: nat)
    requires Linked(g) && Sound(g, inactive, s) && Complete(g, s) && Downstream(g, s, n, depth).Some?
    ensures var r := Downstream(g, s, n, depth).value;
      Sound(g, inactive, r) && Complete(g, r) && Progress(g, s, r) && (NodeMark(s, n) == Skipped ==> Done(g, r, n))
    decreases depth, 0
  {
    if NodeMark(s, n) == Skipped {
      assert LinkedAt(g, n);
      DownstreamEachMarks(g, inactive, s, n, Out(g, n), depth - 1);
    }
  }

  lemma {:induction false} DownstreamEachMarks(g: Graph, inactive: set<NodeId>, s: State, b: NodeId, es: seq<EdgeId>,
      depth: nat)
    requires Linked(g) && Sound(g, inactive, s) && Complete(g, s) && NodeMark(s, b) == Skipped
    requires (forall e :: e in es ==> e in g.edges && Tail(g, e) == b) && DownstreamEach(g, s, es, depth).Some?
    ensures var r := DownstreamEach(g, s, es, depth).value;
      && Sound(g, inactive, r) && Complete(g, r) && Progress(g, s, r)
      && (forall e :: e in es ==> EdgeMark(r.edge, e) == Skipped)
    decreases depth, 1, |es|
  {
    hide Sound, Complete, Progress, AllSkipped, Downstream;
    if es == [] {
      NoProgress(g, s);
    } else {
      var e := es[0];
      assert e in es && forall d :: d in es <==> d == e || d in es[1..];
      var m := StepMarks(g, inactive, s, b, e, depth);
      DownstreamEachMarks(g, inactive, m, b, es[1..], depth);
      var r := DownstreamEach(g, s, es, depth).value;
      ProgressTrans(g, s, m, r);
      ProgressKeeps(g, m, r, e);
    }
  }

  lemma NoProgress(g: Graph, s: State)
    ensures Progress(g, s, s)
  {
  }

  lemma ProgressKeeps(g: Graph, m: State, r: State, e: EdgeId)
    requires Progress(g, m, r)
    ensures EdgeMark(m.edge, e) == Skipped ==> EdgeMark(r.edge, e) == Skipped
  {
  }

  /** One round of the loop. */
  lemma {:induction false} StepMarks(g: Graph, inactive: set<NodeId>, s: State, b: NodeId, e: EdgeId, depth: nat)
    returns (m: State)
    requires Linked(g) && Sound(g, inactive, s) && Complete(g, s) && NodeMark(s, b) == Skipped && e in g.edges
    requires Tail(g, e) == b
    requires var s1 := MarkEdge(s, e, Skipped);
      AllSkipped(g, s1.edge, Head(g, e)) ==> Downstream(g, MarkNode(s1, Head(g, e), Skipped), Head(g, e), depth).Some?
    ensures var s1 := MarkEdge(s, e, Skipped);
      m == if AllSkipped(g, s1.edge, Head(g, e)) then
        Downstream(g, MarkNode(s1, Head(g, e), Skipped), Head(g, e), depth).value else s1
    ensures Sound(g, inactive, m) && Complete(g, m) && Progress(g, s, m) && EdgeMark(m.edge, e) == Skipped
    ensures NodeMark(m, b) == Skipped
    decreases depth, 1, 0
  {
    var s1 := MarkEdge(s, e, Skipped);
    var target := Head(g, e);
    MarkEdgeSound(g, inactive, s, e);
    if AllSkipped(g, s1.edge, target) {
      var s2 := MarkNode(s1, target, Skipped);
      MarkHeadSound(g, inactive, s1, e);
      hide Sound, Complete, AllSkipped, Downstream;
      DownstreamMarks(g, inactive, s2, target, depth);
      m := Downstream(g, s2, target, depth).value;
      HeadProgress(g, s, e, m);
    } else {
      m := s1;
    }
  }

  lemma HeadProgress(g: Graph, s: State, e: EdgeId, m: State)
    requires Progress(g, MarkNode(MarkEdge(s, e, Skipped), Head(g, e), Skipped), m) && Done(g, m, Head(g, e))
    ensures Progress(g, s, m) && EdgeMark(m.edge, e) == Skipped
  {
    var s2 := MarkNode(MarkEdge(s, e, Skipped), Head(g, e), Skipped);
    assert EdgeMark(s2.edge, e) == Skipped;
    forall n | NodeMark(m, n) == Skipped && NodeMark(s, n) != Skipped ensures Done(g, m, n) {
      if n != Head(g, e) { assert NodeMark(s2, n) == NodeMark(s, n); }
    }
  }

  lemma {:induction false} RootsMark(g: Graph, inactive: set<NodeId>, s: State, roots: seq<NodeId>, depth: nat)
    requires Linked(g) && Sound(g, inactive, s) && Complete(g, s) && DownstreamRoots(g, s, roots, depth).Some?
    requires forall n :: n in roots ==> NodeMark(s, n) == Skipped
    ensures var r := DownstreamRoots(g, s, roots, depth).value;
      && Sound(g, inactive, r) && Complete(g, r) && Progress(g, s, r)
      && forall n :: n in roots ==> Done(g, r, n)
    decreases |roots|
  {
    hide Sound, Complete, Downstream;
    if roots == [] {
      NoProgress(g, s);
    } else {
      var m := Downstream(g, s, roots[0], depth).value;
      assert roots[0] in roots && forall n :: n in roots <==> n == roots[0] || n in roots[1..];
      DownstreamMarks(g, inactive, s, roots[0], depth);
      RootsMark(g, inactive, m, roots[1..], depth);
      ProgressTrans(g, s, m, DownstreamRoots(g, s, roots, depth).value);
    }
  }

  /** `_mark_inactive_root_branches`. */
  function MarkAll(g: Graph, order: seq<NodeId>, depth: nat): Option<State> {
    DownstreamRoots(g, SkipNodes(BLANK, InactiveRoots(g, order)), InactiveRoots(g, order), depth)
  }

  /** An edge is SKIPPED exactly when its tail is, a node exactly when it is an inactive root or has
      in-edges, all SKIPPED, and nothing else is marked. */
  ghost predicate Marked(g: Graph, inactive: set<NodeId>, r: State) {
    && r.queue == [] && r.executing == {}
    && (forall d :: d in g.edges ==> MarkedEdge(g, r, d))
    && (forall n :: SkipOk(g, r, inactive, n) && NodeMark(r, n) != Taken)
  }

  ghost predicate MarkedEdge(g: Graph, r: State, d: EdgeId) {
    EdgeMark(r.edge, d) == if NodeMark(r, Tail(g, d)) == Skipped then Skipped else Unknown
  }

  lemma RootsAreSound(g: Graph, roots: seq<NodeId>)
    ensures var s := SkipNodes(BLANK, roots); Sound(g, Elems(roots), s) && Complete(g, s)
  {
    var s := SkipNodes(BLANK, roots);
    forall n | !IsSource(g, n) ensures !AllSkipped(g, s.edge, n) {
      var e :| e in g.edges && Head(g, e) == n;
      assert EdgeMark(s.edge, e) == Unknown;
    }
  }

  lemma AllDoneIsMarked(g: Graph, s: State, roots: seq<NodeId>, r: State)
    requires Sound(g, Elems(roots), r) && Complete(g, r) && Progress(g, s, r) && s == SkipNodes(BLANK, roots)
    requires forall n :: n in roots ==> Done(g, r, n)
    ensures Marked(g, Elems(roots), r)
  {
    forall d | d in g.edges ensures MarkedEdge(g, r, d) {
      assert SoundEdge(g, r, d);
      if NodeMark(r, Tail(g, d)) == Skipped { assert Done(g, r, Tail(g, d)); }
    }
    hide Done, AllSkipped;
    forall n ensures SkipOk(g, r, Elems(roots), n) && NodeMark(r, n) != Taken {
      assert SoundNode(g, Elems(roots), r, n);
      if n in roots { assert NodeMark(s, n) == Skipped; }
    }
  }

  /** Whenever the marking returns, on any graph, that is what it has marked. */
  lemma MarkedWhenReturned(g: Graph, order: seq<NodeId>, depth: nat)
    requires Linked(g) && MarkAll(g, order, depth).Some?
    ensures Marked(g, Elems(InactiveRoots(g, order)), MarkAll(g, order, depth).value)
  {
    hide Sound, Complete, Progress, Done, Marked, InactiveRoots;
    var roots := InactiveRoots(g, order);
    var s := SkipNodes(BLANK, roots);
    RootsAreSound(g, roots);
    RootsMark(g, Elems(roots), s, roots, depth);
    AllDoneIsMarked(g, s, roots, MarkAll(g, order, depth).value);
  }

  // ---------- when it returns ----------

  /** On an acyclic graph the recursion is no deeper than the ranks are high. */
  lemma {:induction false} DownstreamReturns(g: Graph, rank: map<NodeId, nat>, bound: nat, s: State, n: NodeId,
      depth: nat)
    requires Linked(g) && Ranked(g, rank) && n in rank && (forall k :: k in rank ==> rank[k] < bound)
    requires depth + rank[n] > bound
    ensures Downstream(g, s, n, depth).Some?
    decreases depth, 0
  {
    if NodeMark(s, n) == Skipped {
      assert LinkedAt(g, n);
      DownstreamEachReturns(g, rank, bound, s, n, Out(g, n), depth - 1);
    }
  }

  lemma {:induction false} DownstreamEachReturns(g: Graph, rank: map<NodeId, nat>, bound: nat, s: State, b: NodeId,
      es: seq<EdgeId>, depth: nat)
    requires Linked(g) && Ranked(g, rank) && b in rank && (forall k :: k in rank ==> rank[k] < bound)
    requires depth + rank[b] >= bound
    requires forall e :: e in es ==> e in g.edges && Tail(g, e) == b
    ensures DownstreamEach(g, s, es, depth).Some?
    decreases depth, 1, |es|
  {
    if es != [] {
      var e := es[0];
      assert e in es && forall d :: d in es[1..] ==> d in es;
      var s1 := MarkEdge(s, e, Skipped);
      if AllSkipped(g, s1.edge, Head(g, e)) {
        var s2 := MarkNode(s1, Head(g, e), Skipped);
        DownstreamReturns(g, rank, bound, s2, Head(g, e), depth);
        DownstreamEachReturns(g, rank, bound, Downstream(g, s2, Head(g, e), depth).value, b, es[1..], depth);
      } else {
        DownstreamEachReturns(g, rank, bound, s1, b, es[1..], depth);
      }
    }
  }

  lemma {:induction false} RootsReturn(g: Graph, rank: map<NodeId, nat>, bound: nat, s: State, roots: seq<NodeId>,
      depth: nat)
    requires Linked(g) && Ranked(g, rank) && (forall k :: k in rank ==> rank[k] < bound) && depth > bound
    requires forall n :: n in roots ==> n in rank
    ensures DownstreamRoots(g, s, roots, depth).Some?
    decreases |roots|
  {
    hide Downstream;
    if roots != [] {
      assert roots[0] in roots && forall n :: n in roots[1..] ==> n in roots;
      DownstreamReturns(g, rank, bound, s, roots[0], depth);
      RootsReturn(g, rank, bound, Downstream(g, s, roots[0], depth).value, roots[1..], depth);
    }
  }

  /** On an acyclic graph the marking returns, whether or not ROOT nodes have in-edges. */
  lemma ReturnsOnAcyclic(g: Graph, rank: map<NodeId, nat>, bound: nat, order: seq<NodeId>, depth: nat)
    requires Linked(g) && Ranked(g, rank) && (forall k :: k in rank ==> rank[k] < bound) && depth > bound
    requires forall n :: n in order ==> n in g.nodes
    ensures MarkAll(g, order, depth).Some?
  {
    RootsReturn(g, rank, bound, SkipNodes(BLANK, InactiveRoots(g, order)), InactiveRoots(g, order), depth);
  }

  // ---------- what it is worth ----------

  /** Runs may start from the marked state exactly when no edge enters an inactive root. */
  lemma FreshIffSources(g: Graph, inactive: set<NodeId>, r: State)
    requires Wf(g) && Marked(g, inactive, r) && inactive <= g.nodes.Keys - {g.root}
    ensures Fresh(g, inactive, r) <==> forall n :: n in inactive ==> IsSource(g, n)
  {
    forall d | d in g.edges ensures EdgeOk(g, r, map[], d) { assert MarkedEdge(g, r, d); }
  }

  /** Every walk from a source to `n` passes an inactive root. */
  ghost predicate Blocked(g: Graph, inactive: set<NodeId>, n: NodeId) {
    forall a, p :: IsWalk(g, a, p, n) && IsSource(g, a) ==> Passes(g, inactive, a, p)
  }

  ghost predicate Passes(g: Graph, inactive: set<NodeId>, a: NodeId, p: seq<EdgeId>) {
    exists i :: 0 <= i <= |p| && NodeAt(g, a, p, i) in inactive
  }

  lemma {:induction false} SkippedIsBlocked(g: Graph, inactive: set<NodeId>, r: State, a: NodeId, p: seq<EdgeId>,
      n: NodeId)
    requires Marked(g, inactive, r) && NodeMark(r, n) == Skipped && IsWalk(g, a, p, n) && IsSource(g, a)
    ensures Passes(g, inactive, a, p)
    decreases |p|
  {
    hide Passes;
    assert SkipOk(g, r, inactive, n);
    if n in inactive {
      EndPasses(g, inactive, a, p, n);
    } else {
      var e := p[|p| - 1];
      assert MarkedEdge(g, r, e);
      SkippedIsBlocked(g, inactive, r, a, p[..|p| - 1], Tail(g, e));
      FrontPasses(g, inactive, a, p);
    }
  }

  lemma EndPasses(g: Graph, inactive: set<NodeId>, a: NodeId, p: seq<EdgeId>, n: NodeId)
    requires IsWalk(g, a, p, n) && n in inactive
    ensures Passes(g, inactive, a, p)
  {
    assert NodeAt(g, a, p, |p|) == n;
  }

  lemma FrontPasses(g: Graph, inactive: set<NodeId>, a: NodeId, p: seq<EdgeId>)
    requires p != [] && Passes(g, inactive, a, p[..|p| - 1])
    ensures Passes(g, inactive, a, p)
  {
    var q := p[..|p| - 1];
    var i :| 0 <= i <= |q| && NodeAt(g, a, q, i) in inactive;
    assert NodeAt(g, a, p, i) == NodeAt(g, a, q, i);
  }

  lemma {:induction false} OpenWalk(g: Graph, rank: map<NodeId, nat>, inactive: set<NodeId>, r: State, n: NodeId)
    returns (a: NodeId, p: seq<EdgeId>)
    requires Wf(g) && Ranked(g, rank) && Marked(g, inactive, r) && n in g.nodes && NodeMark(r, n) != Skipped
    ensures IsWalk(g, a, p, n) && IsSource(g, a) && !Passes(g, inactive, a, p)
    decreases rank[n]
  {
    assert SkipOk(g, r, inactive, n);
    if IsSource(g, n) {
      a, p := n, [];
    } else {
      var e :| e in g.edges && Head(g, e) == n && EdgeMark(r.edge, e) != Skipped;
      assert MarkedEdge(g, r, e);
      var q: seq<EdgeId>;
      a, q := OpenWalk(g, rank, inactive, r, Tail(g, e));
      WalkSnoc(g, a, q, e);
      p := q + [e];
      forall i | 0 <= i <= |p| ensures NodeAt(g, a, p, i) !in inactive {
        if i < |p| { assert NodeAt(g, a, p, i) == NodeAt(g, a, q, i); }
      }
    }
  }

  /** On an acyclic graph exactly the nodes are skipped that every walk from a source reaches
      through an inactive root. */
  lemma SkippedIffBlocked(g: Graph, rank: map<NodeId, nat>, inactive: set<NodeId>, r: State, n: NodeId)
    requires Wf(g) && Ranked(g, rank) && Marked(g, inactive, r) && n in g.nodes
    ensures NodeMark(r, n) == Skipped <==> Blocked(g, inactive, n)
  {
    hide Marked, Passes;
    if NodeMark(r, n) == Skipped {
      forall a, p | IsWalk(g, a, p, n) && IsSource(g, a) ensures Passes(g, inactive, a, p) {
        SkippedIsBlocked(g, inactive, r, a, p, n);
      }
    } else {
      var a, p := OpenWalk(g, rank, inactive, r, n);
    }
  }

  /** The promise that a node is skipped exactly when all sources among its ancestors are inactive
      roots holds for all nodes exactly when it holds for the inactive roots: each of them must
      have inactive roots only among its own source ancestors. */
  lemma AncestorsDecide(g: Graph, rank: map<NodeId, nat>, inactive: set<NodeId>, r: State)
    requires Wf(g) && Ranked(g, rank) && Marked(g, inactive, r) && inactive <= g.nodes.Keys
    ensures (forall n :: n in g.nodes ==> (NodeMark(r, n) == Skipped <==> OnlyInactiveSources(g, inactive, n)))
       <==> (forall n :: n in inactive ==> OnlyInactiveSources(g, inactive, n))
  {
    forall n | n in inactive ensures NodeMark(r, n) == Skipped { assert SkipOk(g, r, inactive, n); }
    if forall n :: n in inactive ==> OnlyInactiveSources(g, inactive, n) {
      forall n | n in g.nodes ensures NodeMark(r, n) == Skipped <==> OnlyInactiveSources(g, inactive, n) {
        SkippedIffBlocked(g, rank, inactive, r, n);
        BlockedIffInactive(g, inactive, n);
      }
    }
  }

  lemma BlockedIffInactive(g: Graph, inactive: set<NodeId>, n: NodeId)
    requires forall k :: k in inactive ==> OnlyInactiveSources(g, inactive, k)
    ensures Blocked(g, inactive, n) <==> OnlyInactiveSources(g, inactive, n)
  {
    if Blocked(g, inactive, n) {
      forall a, p | IsWalk(g, a, p, n) && IsSource(g, a) ensures a in inactive {
        assert Passes(g, inactive, a, p);
        var i :| 0 <= i <= |p| && NodeAt(g, a, p, i) in inactive;
        WalkFront(g, a, p, n, i);
      }
    }
    if OnlyInactiveSources(g, inactive, n) {
      forall a, p | IsWalk(g, a, p, n) && IsSource(g, a) ensures Passes(g, inactive, a, p) {
        assert NodeAt(g, a, p, 0) == a;
      }
    }
  }

  lemma {:induction false} WalkFront(g: Graph, a: NodeId, p: seq<EdgeId>, n: NodeId, i: nat)
    requires IsWalk(g, a, p, n) && i <= |p|
    ensures IsWalk(g, a, p[..i], NodeAt(g, a, p, i))
    decreases |p|
  {
    if i == |p| {
      assert p[..i] == p;
    } else {
      var q := p[..|p| - 1];
      WalkFront(g, a, q, Tail(g, p[|p| - 1]), i);
      assert p[..i] == q[..i] && NodeAt(g, a, p, i) == NodeAt(g, a, q, i);
    }
  }

  // ---------- an example ----------

  /** An edge leads from the active root to another ROOT node. */
  function RootToRoot(root: NodeId, r: NodeId, e: EdgeId): Graph {
    Graph(map[root := Node(Root, Abort, false, 0, {}, []), r := Node(Root, Abort, false, 0, {}, [])],
          map[e := Edge(root, r, "source")], map[r := [e]], map[root := [e]], root)
  }

  lemma RootToRootIsWf(root: NodeId, r: NodeId, e: EdgeId)
    requires root != r
    ensures var g := RootToRoot(root, r, e); Wf(g) && Ranked(g, map[root := 0, r := 1]) && IsWalk(g, root, [e], r)
  {
    var g := RootToRoot(root, r, e);
    forall n ensures LinkedAt(g, n) {
      assert multiset(Out(g, n)) <= multiset{e};
    }
    assert [e][..0] == [];
  }

  lemma TwoMembers<T>(xs: seq<T>, a: T, b: T)
    requires a in xs && b in xs && a != b
    ensures |xs| > 1
  {
    assert Elems(xs) <= {xs[0]} || |xs| > 1;
  }

  /** With a second ROOT node in the table, every ROOT node but the active one is skipped. */
  lemma OthersAreInactive(g: Graph, order: seq<NodeId>, other: NodeId)
    requires g.root in order && Kind(g, g.root) == Root && other in order && Kind(g, other) == Root && other != g.root
    ensures forall n :: n in InactiveRoots(g, order) <==> n in order && Kind(g, n) == Root && n != g.root
  {
    hide RootNodes, Without, Kind;
    TwoMembers(RootNodes(g, order), g.root, other);
  }

  /** Which nodes are skipped before a run: all ROOT nodes but the active one, or none if the active
      root is not a ROOT node itself. */
  lemma InactiveRootsAre(g: Graph, order: seq<NodeId>, n: NodeId)
    requires g.root in order
    ensures n in InactiveRoots(g, order) <==>
      n in order && n != g.root && Kind(g, n) == Root && Kind(g, g.root) == Root
  {
    hide RootNodes, Without, Kind;
    if n in order && n != g.root && Kind(g, n) == Root && Kind(g, g.root) == Root { OthersAreInactive(g, order, n); }
  }

  lemma OnlyMember<T>(xs: seq<T>, a: T)
    requires forall x :: x in xs <==> x == a
    ensures Elems(xs) == {a}
  {
  }

  lemma RootToRootSkips(root: NodeId, r: NodeId, e: EdgeId)
    requires root != r
    ensures Elems(InactiveRoots(RootToRoot(root, r, e), [root, r])) == {r}
  {
    var g := RootToRoot(root, r, e);
    var order := [root, r];
    assert order[0] == root && order[1] == r && Kind(g, root) == Root && Kind(g, r) == Root;
    hide RootToRoot, InactiveRoots, Kind;
    OthersAreInactive(g, order, r);
    OnlyMember(InactiveRoots(g, order), r);
  }

  /** The other ROOT node is SKIPPED although the active root leads to it, and no run may start
      from the result: both promises fail. */
  lemma EdgeIntoRootFails(root: NodeId, r: NodeId, e: EdgeId, depth: nat)
    requires root != r && depth > 2
    ensures var g, m := RootToRoot(root, r, e), MarkAll(RootToRoot(root, r, e), [root, r], depth);
      && m.Some? && NodeMark(m.value, r) == Skipped
      && !OnlyInactiveSources(g, {r}, r) && !Fresh(g, {r}, m.value)
  {
    hide RootToRoot, InactiveRoots, DownstreamRoots, MarkAll;
    var g := RootToRoot(root, r, e);
    RootToRootIsWf(root, r, e);
    RootToRootSkips(root, r, e);
    ReturnsOnAcyclic(g, map[root := 0, r := 1], 2, [root, r], depth);
    MarkedWhenReturned(g, [root, r], depth);
    assert SkipOk(g, MarkAll(g, [root, r], depth).value, {r}, r);
  }
}
