/** The edge processor as an object over the state manager, the skip propagator and the response
    coordinator (edge_processor.py). */
module EdgeProcessors {
  import opened Templates
  import opened VariablePool
  import opened Graphs
  import opened Traversal
  import opened Completion
  import opened Scheduler
  import opened Coordinator
  import opened CoordinatorRuns
  import opened World
  import opened StateManagers
  import opened SkipPropagators
  import opened ResponseCoordinators

  /** Reporting taken edges one after the other. */
  function ReportEdges(env: Env, c: Coord, es: seq<EdgeId>, order: seq<NodeId>): (Coord, seq<Emitted>)
    decreases |es|
  {
    if es == [] then (c, [])
    else
      var (c1, evs) := OnEdgeTaken(env, c, es[0], order);
      var (r, rest) := ReportEdges(env, c1, es[1..], order);
      (r, evs + rest)
  }

  /** The reports are the operations that runs of the whole engine are made of. */
  lemma {:induction false} ReportsAreOps(g: Graph, env: Env, c: Coord, log: seq<Emitted>, es: seq<EdgeId>,
      order: seq<NodeId>)
    requires Wf(g) && Feasible(g, c, EdgeOps(env, es, order))
    ensures RunOps(g, c, log, EdgeOps(env, es, order)) ==
      (ReportEdges(env, c, es, order).0, log + ReportEdges(env, c, es, order).1)
    decreases |es|
  {
    hide OnEdgeTaken;
    if es == [] {
      assert log + [] == log;
    } else {
      assert EdgeOps(env, es, order)[1..] == EdgeOps(env, es[1..], order);
      var (c1, evs) := OnEdgeTaken(env, c, es[0], order);
      ReportsAreOps(g, env, c1, log + evs, es[1..], order);
      assert log + (evs + ReportEdges(env, c1, es[1..], order).1) ==
        (log + evs) + ReportEdges(env, c1, es[1..], order).1;
    }
  }

  lemma ReportRound(env: Env, c: Coord, before: seq<Emitted>, es: seq<EdgeId>, i: nat, order: seq<NodeId>)
    requires i < |es|
    ensures var (c1, evs) := OnEdgeTaken(env, c, es[i], order);
      && ReportEdges(env, c, es[i..], order).0 == ReportEdges(env, c1, es[i + 1..], order).0
      && before + ReportEdges(env, c, es[i..], order).1 == (before + evs) + ReportEdges(env, c1, es[i + 1..], order).1
  {
    hide OnEdgeTaken;
    assert es[i..][1..] == es[i + 1..] && es[i..][0] == es[i];
  }

  lemma TakeRound(g: Graph, m: Marks, before: seq<NodeId>, es: seq<EdgeId>, i: nat)
    requires i < |es|
    ensures var m1 := m[es[i] := Taken];
      var here := if IsReady(g, m1, Head(g, es[i])) then [Head(g, es[i])] else [];
      && TakeEdges(g, m, es[i..]).0 == TakeEdges(g, m1, es[i + 1..]).0
      && before + TakeEdges(g, m, es[i..]).1 == (before + here) + TakeEdges(g, m1, es[i + 1..]).1
  {
    hide IsReady;
    assert es[i..][1..] == es[i + 1..] && es[i..][0] == es[i];
  }

  lemma NothingToTake(g: Graph, m: Marks, env: Env, c: Coord, es: seq<EdgeId>, order: seq<NodeId>, ready: seq<NodeId>,
      events: seq<Emitted>)
    requires |es| == 0
    ensures TakeEdges(g, m, es) == (m, []) && ReportEdges(env, c, es, order) == (c, []) && ready + [] == ready
    ensures events + [] == events
  {
  }

  class EdgeProcessor {
    const sm: GraphStateManager
    const sp: SkipPropagator
    const rc: ResponseStreamCoordinator

    constructor (sm: GraphStateManager, sp: SkipPropagator, rc: ResponseStreamCoordinator)
      requires sp.sm == sm
      ensures this.sm == sm && this.sp == sp && this.rc == rc && Wired()
    {
      this.sm, this.sp, this.rc := sm, sp, rc;
    }

    predicate Wired() { sp.sm == sm }

    /** Mark, report, and see whether the head is ready. */
    method ProcessTakenEdge(e: EdgeId, pool: Pool) returns (ready: seq<NodeId>, events: seq<Emitted>)
      requires Wf(sm.g)
      modifies sm`edge, rc
      ensures sm.View() == MarkEdge(old(sm.View()), e, Taken) && rc.responses == old(rc.responses)
      ensures (rc.View(), events) == OnEdgeTaken(EnvOf(sm.g, old(sm.View()), pool), old(rc.View()), e,
        old(rc.responses))
      ensures ready == if IsReady(sm.g, sm.edge, Head(sm.g, e)) then [Head(sm.g, e)] else []
    {
      sm.MarkEdgeTaken(e);
      assert EnvOf(sm.g, sm.View(), pool) == EnvOf(sm.g, old(sm.View()), pool);
      events := rc.OnEdgeTaken(EnvOf(sm.g, sm.View(), pool), e);
      var isReady := sm.IsNodeReady(Head(sm.g, e));
      ready := if isReady then [Head(sm.g, e)] else [];
    }

    /** The loop over taken edges. */
    method ProcessTakenEdges(es: seq<EdgeId>, pool: Pool) returns (ready: seq<NodeId>, events: seq<Emitted>)
      requires Wf(sm.g)
      modifies sm`edge, rc
      ensures rc.responses == old(rc.responses)
      ensures sm.View() == old(sm.View()).(edge := TakeEdges(sm.g, old(sm.edge), es).0)
      ensures ready == TakeEdges(sm.g, old(sm.edge), es).1
      ensures (rc.View(), events) == ReportEdges(EnvOf(sm.g, old(sm.View()), pool), old(rc.View()), es,
        old(rc.responses))
    {
      hide TakeEdges, ReportEdges, OnEdgeTaken, IsReady;
      ready, events := [], [];
      ghost var env, order := EnvOf(sm.g, sm.View(), pool), rc.responses;
      ghost var taken, told := TakeEdges(sm.g, sm.edge, es), ReportEdges(env, rc.View(), es, order);
      assert es[0..] == es && ready + taken.1 == taken.1 && events + told.1 == told.1;
      for i := 0 to |es|
        invariant rc.responses == order && sm.View() == old(sm.View()).(edge := sm.edge)
        invariant TakeEdges(sm.g, sm.edge, es[i..]).0 == taken.0
        invariant ready + TakeEdges(sm.g, sm.edge, es[i..]).1 == taken.1
        invariant ReportEdges(env, rc.View(), es[i..], order).0 == told.0
        invariant events + ReportEdges(env, rc.View(), es[i..], order).1 == told.1
      {
        ReportRound(env, rc.View(), events, es, i, order);
        TakeRound(sm.g, sm.edge, ready, es, i);
        assert EnvOf(sm.g, sm.View(), pool) == env;
        var nodes, more := ProcessTakenEdge(es[i], pool);
        ready := ready + nodes;
        events := events + more;
      }
      NothingToTake(sm.g, sm.edge, env, rc.View(), es[|es|..], order, ready, events);
    }

    /** Marks the unselected edges; after `skip_branch_paths` this changes nothing. */
    method ProcessSkippedEdges(es: seq<EdgeId>)
      modifies sm`edge
      ensures sm.View() == old(sm.View()).(edge := RemarkSkipped(old(sm.edge), es))
    {
      assert es[0..] == es;
      for i := 0 to |es|
        invariant sm.View() == old(sm.View()).(edge := sm.edge)
        invariant RemarkSkipped(sm.edge, es[i..]) == RemarkSkipped(old(sm.edge), es)
      {
        assert es[i..][1..] == es[i + 1..];
        sm.MarkEdgeSkipped(es[i]);
      }
      assert es[|es|..] == [];
    }

    /** Raises (`ok` is false) for a branch node without a handle, before anything is marked. */
    method ProcessNodeSuccess(n: NodeId, handle: string, pool: Pool) returns (ok: bool, ready: seq<NodeId>,
        events: seq<Emitted>)
      requires Wf(sm.g)
      modifies sm`edge, rc
      ensures rc.responses == old(rc.responses)
      ensures var o := Completion.ProcessNodeSuccess(sm.g, old(sm.View()), n, handle);
        && ok == o.Done?
        && (ok ==> sm.View() == o.state && ready == o.ready &&
                   (rc.View(), events) == ReportEdges(EnvOf(sm.g, old(sm.View()), pool), old(rc.View()),
                     TakenList(sm.g, n, handle), old(rc.responses)))
        && (!ok ==> sm.View() == old(sm.View()) && rc.View() == old(rc.View()) && events == [])
    {
      hide ReportEdges, TakeEdges, RemarkSkipped, OnEdgeTaken, Selected, Unselected;
      ready, events := [], [];
      if IsBranch(sm.g, n) {
        if handle == "" { return false, ready, events; }
        var selected, unselected := sm.CategorizeBranchEdges(n, handle);
        ProcessSkippedEdges(unselected);
        assert EnvOf(sm.g, sm.View(), pool) == EnvOf(sm.g, old(sm.View()), pool);
        ready, events := ProcessTakenEdges(selected, pool);
      } else {
        ready, events := ProcessTakenEdges(Out(sm.g, n), pool);
      }
      ok := true;
    }

    /** Raises without a handle; otherwise skips the unselected paths, then takes the selected
        edges. */
    method HandleBranchCompletion(n: NodeId, handle: string, pool: Pool) returns (ok: bool, ready: seq<NodeId>,
        events: seq<Emitted>)
      requires Wired() && Wf(sm.g) && Pending(sm.g, sm.edge, n, Out(sm.g, n))
      modifies sm, sm.queue, sp, rc
      ensures rc.responses == old(rc.responses)
      ensures var o := Completion.HandleBranchCompletion(sm.g, old(sm.View()), n, handle);
        && ok == o.Done?
        && (ok ==> sm.View() == o.state && ready == o.ready)
        && (ok ==>
              (rc.View(), events) == ReportEdges(EnvOf(sm.g, AfterSkips(sm.g, old(sm.View()), n, handle, true), pool),
                                                 old(rc.View()), TakenList(sm.g, n, handle), old(rc.responses)))
        && (!ok ==> sm.View() == old(sm.View()) && rc.View() == old(rc.View()) && events == [])
    {
      hide ReportEdges, Pending, SkipEdges, Selected, Unselected, EnvOf;
      if handle == "" { return false, [], []; }
      var selected, unselected := sm.CategorizeBranchEdges(n, handle);
      CategoryIsPending(sm.g, sm.edge, n, Out(sm.g, n), handle, false);
      assert Unselected(sm.g, n, handle) == Categorize(sm.g, Out(sm.g, n), handle, false) by {
        UnselectedIs(sm.g, n, handle);
      }
      sp.SkipBranchPaths(n, unselected);
      ok, ready, events := ProcessNodeSuccess(n, handle, pool);
    }
  }

  lemma UnselectedIs(g: Graph, n: NodeId, handle: string)
    ensures Unselected(g, n, handle) == Categorize(g, Out(g, n), handle, false)
  {
  }
}
