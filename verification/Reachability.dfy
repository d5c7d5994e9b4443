/** Taken edges and paths from the root: every scheduled node is reached by a simple path of taken
    edges, and a node whose path has its branches decided is never skipped. */
module Reachability {
  import opened Templates
  import opened VariablePool
  import opened Graphs
  import opened Traversal
  import opened Completion
  import opened Marking
  import opened Scheduler
  import opened Runs
  import opened Walks
  import opened Paths

  ghost predicate TakenPathBy(g: Graph, taken: set<EdgeId>, n: NodeId, p: seq<EdgeId>) {
    IsSimplePath(g, g.root, p, n) && forall e :: e in p ==> e in taken
  }

  ghost predicate TakenPath(g: Graph, taken: set<EdgeId>, n: NodeId) {
    exists p :: TakenPathBy(g, taken, n, p)
  }

  ghost predicate Reached(g: Graph, c: Core) {
    forall n :: n in Active(c) ==> TakenPath(g, Elems(c.taken), n)
  }

  /** The node before an edge of a walk is the edge's tail. */
  lemma {:induction false} WalkTail(g: Graph, a: NodeId, p: seq<EdgeId>, b: NodeId, i: nat)
    requires IsWalk(g, a, p, b) && i < |p|
    ensures p[i] in g.edges && NodeAt(g, a, p, i) == Tail(g, p[i])
    ensures NodeAt(g, a, p, |p|) == b
    decreases |p|
  {
    var last := p[|p| - 1];
    var q := p[..|p| - 1];
    if i < |q| {
      WalkTail(g, a, q, Tail(g, last), i);
    } else if q != [] {
      WalkTail(g, a, q, Tail(g, last), 0);
    }
  }

  /** A taken path goes on to a node that was not scheduled yet, and stays simple, because the
      nodes on it all were. */
  lemma ExtendPath(g: Graph, inactive: set<NodeId>, c: Core, d: EdgeId, taken: set<EdgeId>)
    requires Wf(g) && CoreOk(g, inactive, c) && Reached(g, c)
    requires d in g.edges && Tail(g, d) in Active(c) && Head(g, d) !in Active(c)
    requires Elems(c.taken) <= taken && d in taken
    ensures TakenPath(g, taken, Head(g, d))
  {
    hide CoreOk, Active;
    var t, n := Tail(g, d), Head(g, d);
    var p :| TakenPathBy(g, Elems(c.taken), t, p);
    var q := p + [d];
    WalkSnoc(g, g.root, p, d);
    forall i | 0 <= i <= |p|
      ensures NodeAt(g, g.root, q, i) == NodeAt(g, g.root, p, i) && NodeAt(g, g.root, p, i) in Active(c)
    {
      PathIsActive(g, inactive, c, p, t, i);
    }
    assert NodeAt(g, g.root, q, |q|) == n;
    assert Distinct(g, g.root, q) by {
      forall i, j | 0 <= i < j <= |q| ensures NodeAt(g, g.root, q, i) != NodeAt(g, g.root, q, j) {
        assert NodeAt(g, g.root, p, i) in Active(c);
        if j <= |p| { assert NodeAt(g, g.root, p, i) != NodeAt(g, g.root, p, j); }
      }
    }
    assert TakenPathBy(g, taken, n, q);
  }

  lemma PathIsActive(g: Graph, inactive: set<NodeId>, c: Core, p: seq<EdgeId>, t: NodeId, i: nat)
    requires Wf(g) && CoreOk(g, inactive, c) && TakenPathBy(g, Elems(c.taken), t, p) && t in Active(c) && i <= |p|
    ensures NodeAt(g, g.root, p, i) in Active(c)
  {
    if i < |p| {
      WalkTail(g, g.root, p, t, i);
      assert EdgeOk(g, c.s, c.finished, p[i]);
    }
  }

  /** What a step of a run may change: finished nodes were scheduled, taken edges add up. */
  ghost predicate Grows(c: Core, r: Core) {
    r.finished.Keys <= Active(c) && c.taken <= r.taken
  }

  lemma GrowthIsReached(g: Graph, inactive: set<NodeId>, c: Core, r: Core)
    requires Wf(g) && CoreOk(g, inactive, c) && Reached(g, c) && CoreOk(g, inactive, r) && Grows(c, r)
    ensures Reached(g, r)
  {
    hide CoreOk, IsSimplePath, Active;
    TakenGrows(c.taken, r.taken);
    forall n | n in Active(r) ensures TakenPath(g, Elems(r.taken), n) {
      if n in Active(c) {
        var p :| TakenPathBy(g, Elems(c.taken), n, p);
        assert TakenPathBy(g, Elems(r.taken), n, p);
      } else {
        var d := NewNodeHasTakenEdge(g, inactive, c, r, n);
        ExtendPath(g, inactive, c, d, Elems(r.taken));
      }
    }
  }

  lemma TakenGrows(a: seq<EdgeId>, b: seq<EdgeId>)
    requires a <= b
    ensures Elems(a) <= Elems(b)
  {
  }

  lemma NewNodeHasTakenEdge(g: Graph, inactive: set<NodeId>, c: Core, r: Core, n: NodeId) returns (d: EdgeId)
    requires Wf(g) && CoreOk(g, inactive, c) && CoreOk(g, inactive, r) && Grows(c, r) && n in Active(r)
    requires n !in Active(c)
    ensures d in g.edges && Head(g, d) == n && Tail(g, d) in Active(c) && d in Elems(r.taken)
  {
    assert NodeOk(g, r.s, Active(r), On(r), n) && NodeOk(g, c.s, Active(c), On(c), g.root);
    d :| d in g.edges && Head(g, d) == n && EdgeMark(r.s.edge, d) == Taken;
    assert EdgeOk(g, r.s, r.finished, d);
  }

  // ---------- every step grows ----------

  /** The handle with which handling the event completes its node, if it does. */
  function CompletedWith(g: Graph, c: Core, ev: Event): Option<string> {
    match ev
    case Succeeded(n, handle, _) =>
      if !IsBranch(g, n) then Some("") else if handle == "" then None else Some(handle)
    case Failed(n) =>
      if HandleNodeFailure(g, n, RetryCount(c, n)) != Exception then None
      else if Strategy(g, n) == FailBranch then Some("fail-branch")
      else if IsBranch(g, n) then None
      else Some("")
    case _ => None
  }

  /** The edges that handling the event takes, in order. */
  function TakenOn(g: Graph, c: Core, ev: Event): seq<EdgeId> {
    match CompletedWith(g, c, ev)
    case Some(handle) => TakenList(g, ev.node, handle)
    case None => []
  }

  lemma RaisingMeans(g: Graph, s: State, n: NodeId, h: string)
    requires Wf(g) && Pending(g, s.edge, n, Out(g, n))
    ensures ProcessNodeSuccess(g, s, n, h).Raised? <==> IsBranch(g, n) && h == ""
    ensures HandleBranchCompletion(g, s, n, h).Raised? <==> h == ""
  {
  }

  lemma HandlerTakes(g: Graph, c: Core, f: Flags, ev: Event)
    requires Wf(g) && (Midway(ev) || Pending(g, c.s.edge, ev.node, Out(g, ev.node)))
    ensures var r := HandleEvent(g, c, f, ev).0;
      && r.taken == c.taken + TakenOn(g, c, ev)
      && r.finished == match CompletedWith(g, c, ev) case Some(h) => c.finished[ev.node := h] case None => c.finished
  {
    hide Pending, Out, ScheduleAll, TakenList, HandleNodeFailure, ProcessNodeSuccess, HandleBranchCompletion;
    assert c.taken + [] == c.taken;
    if !Midway(ev) {
      RaisingMeans(g, c.s, ev.node, "");
      RaisingMeans(g, c.s, ev.node, "fail-branch");
      if ev.Succeeded? { RaisingMeans(g, c.s, ev.node, ev.handle); }
    }
  }

  lemma {:induction false} StepGrows(g: Graph, inactive: set<NodeId>, e: Engine, step: Step, r: Engine)
    requires Wf(g) && Inv(g, inactive, e) && Next(g, e, step, r)
    ensures Grows(e.core, r.core)
    ensures r.core.taken == e.core.taken + if step.Dispatch? then TakenOn(g, e.core, e.events[0]) else []
  {
    hide CoreOk, HandleEvent, Pending, TakenOn;
    if step.Dispatch? {
      var ev := e.events[0];
      HandlerTakes(g, e.core, e.flags, ev);
      if !Midway(ev) {
        LedgerOnce(e, ev.node);
        assert Terminals(e.events) == multiset{ev.node} + Terminals(e.events[1..]);
      }
    }
  }

  /** Hence in every state of a run all scheduled nodes are reached by taken edges. */
  lemma StepKeepsReached(g: Graph, inactive: set<NodeId>, e: Engine, step: Step, r: Engine)
    requires Wf(g) && Promoted(g) && Inv(g, inactive, e) && Next(g, e, step, r) && Reached(g, e.core)
    ensures Reached(g, r.core)
  {
    hide Next, CoreOk, Reached, Grows;
    StepKeepsInv(g, inactive, e, step, r);
    StepGrows(g, inactive, e, step, r);
    GrowthIsReached(g, inactive, e.core, r.core);
  }

  lemma StartIsReached(g: Graph, s: State)
    requires Wf(g) && s.executing == {}
    ensures Reached(g, Started(g, s).core)
  {
    var c := Started(g, s).core;
    assert Active(c) == {g.root};
    assert TakenPathBy(g, Elems(c.taken), g.root, []);
  }

  // ---------- decided paths ----------

  /** The edges of the walk that leave branch nodes have been taken. */
  ghost predicate Decided(g: Graph, taken: set<EdgeId>, p: seq<EdgeId>) {
    forall e :: e in p && IsBranch(g, Tail(g, e)) ==> e in taken
  }

  /** Then no node on the walk is skipped: from the root on, each keeps an in-edge that is not. */
  lemma {:induction false} DecidedIsNotSkipped(g: Graph, inactive: set<NodeId>, c: Core, p: seq<EdgeId>, n: NodeId)
    requires Wf(g) && CoreOk(g, inactive, c) && IsWalk(g, g.root, p, n) && n in g.nodes && Decided(g, Elems(c.taken), p)
    ensures NodeMark(c.s, n) != Skipped
    decreases |p|
  {
    assert SkipOk(g, c.s, inactive, n);
    if p != [] {
      var d := p[|p| - 1];
      assert d in p;
      DecidedIsNotSkipped(g, inactive, c, p[..|p| - 1], Tail(g, d));
      assert EdgeOk(g, c.s, c.finished, d);
    }
  }
}
