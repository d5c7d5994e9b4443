/** What a run on an acyclic graph must end in, said without any schedule: which nodes execute
    and which edges are taken, by recursion along the edges. */
module Semantics {
  import opened Graphs
  import opened Traversal
  import opened Marking
  import opened Scheduler
  import opened Runs

  /** The handle that each branch node selects. */
  type Choice = NodeId -> string

  /** A node executes iff it is the root or some edge into it is taken. */
  ghost predicate Executes(g: Graph, rank: map<NodeId, nat>, h: Choice, n: NodeId)
    requires Wf(g) && Ranked(g, rank) && n in g.nodes
    decreases rank[n], 1
  {
    n == g.root || exists e :: e in g.edges && Head(g, e) == n && EdgeTaken(g, rank, h, e)
  }

  /** An edge is taken iff its tail executes and is no branch or selects the edge's handle. */
  ghost predicate EdgeTaken(g: Graph, rank: map<NodeId, nat>, h: Choice, e: EdgeId)
    requires Wf(g) && Ranked(g, rank) && e in g.edges
    decreases rank[Head(g, e)], 0
  {
    Executes(g, rank, h, Tail(g, e)) && Takes(g, e, h(Tail(g, e)))
  }

  /** Every branch node that has finished did so with the handle that `h` gives it. */
  ghost predicate Respects(g: Graph, c: Core, h: Choice) {
    forall n :: n in c.finished && IsBranch(g, n) ==> c.finished[n] == h(n)
  }

  ghost predicate NodeAgrees(g: Graph, rank: map<NodeId, nat>, h: Choice, c: Core, n: NodeId)
    requires Wf(g) && Ranked(g, rank) && n in g.nodes
  {
    && (n in Active(c) ==> Executes(g, rank, h, n))
    && (NodeMark(c.s, n) == Skipped ==> !Executes(g, rank, h, n))
  }

  ghost predicate EdgeAgrees(g: Graph, rank: map<NodeId, nat>, h: Choice, c: Core, e: EdgeId)
    requires Wf(g) && Ranked(g, rank) && e in g.edges
  {
    && (EdgeMark(c.s.edge, e) == Taken ==> EdgeTaken(g, rank, h, e))
    && (EdgeMark(c.s.edge, e) == Skipped ==> !EdgeTaken(g, rank, h, e))
  }

  lemma {:induction false} EdgeMarkAgrees(g: Graph, rank: map<NodeId, nat>, inactive: set<NodeId>, h: Choice, c: Core,
      e: EdgeId)
    requires Wf(g) && Ranked(g, rank) && CoreOk(g, inactive, c) && Respects(g, c, h) && e in g.edges
    ensures EdgeAgrees(g, rank, h, c, e)
    decreases rank[Head(g, e)], 0
  {
    assert EdgeOk(g, c.s, c.finished, e);
    NodeMarkAgrees(g, rank, inactive, h, c, Tail(g, e));
  }

  /** In every state with the invariant, marks say what the recursive semantics says: nodes that
      were scheduled execute, SKIPPED ones do not. */
  lemma {:induction false} NodeMarkAgrees(g: Graph, rank: map<NodeId, nat>, inactive: set<NodeId>, h: Choice, c: Core,
      n: NodeId)
    requires Wf(g) && Ranked(g, rank) && CoreOk(g, inactive, c) && Respects(g, c, h) && n in g.nodes
    ensures NodeAgrees(g, rank, h, c, n)
    decreases rank[n], 1
  {
    assert SkipOk(g, c.s, inactive, n) && NodeOk(g, c.s, Active(c), On(c), n);
    forall e | e in g.edges && Head(g, e) == n ensures EdgeAgrees(g, rank, h, c, e) {
      EdgeMarkAgrees(g, rank, inactive, h, c, e);
    }
  }

  /** Nothing is running, parked or failed. */
  ghost predicate Quiescent(c: Core) {
    c.s.executing == {} && c.paused == {} && c.deferred == {} && c.failed == {}
  }

  /** The only nodes without in-edges are the root and the inactive roots. */
  ghost predicate Rooted(g: Graph, inactive: set<NodeId>) {
    forall n :: n in g.nodes && IsSource(g, n) ==> n == g.root || n in inactive
  }

  /** No node is stuck: when nothing runs any more, every node has finished or is SKIPPED. */
  lemma {:induction false} NoStuckNode(g: Graph, rank: map<NodeId, nat>, inactive: set<NodeId>, c: Core, n: NodeId)
    requires Wf(g) && Ranked(g, rank) && Rooted(g, inactive) && CoreOk(g, inactive, c) && Quiescent(c) && n in g.nodes
    ensures n in c.finished <==> NodeMark(c.s, n) != Skipped
    ensures forall e :: e in g.edges && Head(g, e) == n ==> EdgeMark(c.s.edge, e) != Unknown
    decreases rank[n]
  {
    forall e | e in g.edges && Head(g, e) == n ensures EdgeMark(c.s.edge, e) != Unknown {
      NoStuckNode(g, rank, inactive, c, Tail(g, e));
      assert EdgeOk(g, c.s, c.finished, e);
    }
    assert SkipOk(g, c.s, inactive, n) && NodeOk(g, c.s, Active(c), On(c), n);
    SkippedIsSettled(g, inactive, c.s, n);
    assert Active(c) == c.finished.Keys;
  }

  /** A quiescent state is the one that the semantics describes. */
  lemma QuiescentIsDenotation(g: Graph, rank: map<NodeId, nat>, inactive: set<NodeId>, h: Choice, c: Core)
    requires Wf(g) && Ranked(g, rank) && Rooted(g, inactive) && CoreOk(g, inactive, c) && Quiescent(c)
    requires Respects(g, c, h)
    ensures c.finished.Keys <= g.nodes.Keys
    ensures forall n :: n in g.nodes ==> NodeMark(c.s, n) == if Executes(g, rank, h, n) then Taken else Skipped
    ensures forall n :: n in g.nodes ==> (n in c.finished <==> Executes(g, rank, h, n))
    ensures forall e :: e in g.edges ==> EdgeMark(c.s.edge, e) == if EdgeTaken(g, rank, h, e) then Taken else Skipped
  {
    forall n | n in g.nodes
      ensures NodeMark(c.s, n) == if Executes(g, rank, h, n) then Taken else Skipped
      ensures n in c.finished <==> Executes(g, rank, h, n)
    {
      NoStuckNode(g, rank, inactive, c, n);
      NodeMarkAgrees(g, rank, inactive, h, c, n);
      assert NodeOk(g, c.s, Active(c), On(c), n);
      assert Active(c) == c.finished.Keys == On(c);
    }
    forall e | e in g.edges ensures EdgeMark(c.s.edge, e) == if EdgeTaken(g, rank, h, e) then Taken else Skipped {
      NoStuckNode(g, rank, inactive, c, Head(g, e));
      EdgeMarkAgrees(g, rank, inactive, h, c, e);
    }
  }

  /** Schedule independence: two runs of the same graph in which every branch node selects the
      same handle end, when they end without failure or pause, with the same nodes finished, the
      same node marks and the same edge marks, whatever the order of events was. */
  lemma ScheduleIndependence(g: Graph, rank: map<NodeId, nat>, inactive: set<NodeId>, s: State, h: Choice,
                             trace1: seq<Engine>, steps1: seq<Step>, trace2: seq<Engine>, steps2: seq<Step>)
    requires Wf(g) && Promoted(g) && Ranked(g, rank) && Rooted(g, inactive) && Fresh(g, inactive, s)
    requires IsRun(g, trace1, steps1) && IsRun(g, trace2, steps2) && trace1[0] == Started(g, s) == trace2[0]
    requires Quiescent(trace1[|trace1| - 1].core) && Quiescent(trace2[|trace2| - 1].core)
    requires Respects(g, trace1[|trace1| - 1].core, h) && Respects(g, trace2[|trace2| - 1].core, h)
    ensures var c1, c2 := trace1[|trace1| - 1].core, trace2[|trace2| - 1].core;
      && c1.finished.Keys == c2.finished.Keys
      && (forall n :: n in g.nodes ==> NodeMark(c1.s, n) == NodeMark(c2.s, n))
      && (forall e :: e in g.edges ==> EdgeMark(c1.s.edge, e) == EdgeMark(c2.s.edge, e))
  {
    hide CoreOk, Next, Fresh, Respects, Executes, EdgeTaken;
    var c1, c2 := trace1[|trace1| - 1].core, trace2[|trace2| - 1].core;
    ReachableIsInv(g, inactive, s, trace1, steps1, |trace1| - 1);
    ReachableIsInv(g, inactive, s, trace2, steps2, |trace2| - 1);
    QuiescentIsDenotation(g, rank, inactive, h, c1);
    QuiescentIsDenotation(g, rank, inactive, h, c2);
    assert forall n :: n in c1.finished.Keys <==> n in c2.finished.Keys;
  }
}
