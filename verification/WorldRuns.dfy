/** Runs of the engine with its response coordinator. */
module WorldRuns {
  import opened Templates
  import opened VariablePool
  import opened Graphs
  import opened Traversal
  import opened Completion
  import opened Marking
  import opened Scheduler
  import opened Runs
  import opened Paths
  import opened Coordinator
  import opened Sessions
  import opened CoordinatorRuns
  import opened StoredPaths
  import opened Reachability
  import opened World
  import opened GraphInit
  import opened Semantics

  datatype Move = Move(step: Step, outputs: map<string, Value>, order: seq<NodeId>)

  // ---------- the start ----------

  lemma {:induction false} RegistrationsAreFeasible(g: Graph, c: Coord, order: seq<NodeId>)
    requires Wf(g)
    ensures Feasible(g, c, Registrations(order))
    decreases |order|
  {
    if order != [] {
      RegistrationsAreFeasible(g, Apply(g, c, RegisterNode(order[0])).0, order[1..]);
      assert Registrations(order)[1..] == Registrations(order[1..]);
    }
  }

  /** `_start_execution`: register the response nodes, then schedule the root. */
  ghost function WorldStarted(g: Graph, s: State, pool: Pool, order: seq<NodeId>): World
    requires Wf(g)
  {
    RegistrationsAreFeasible(g, INITIAL, order);
    World(Started(g, s), RunOps(g, INITIAL, [], Registrations(order)).0, pool, map[], [])
  }

  lemma {:induction false} RegistrationsRegister(g: Graph, c: Coord, order: seq<NodeId>)
    requires Wf(g) && CoordOk(c, []) && Stored(g, c, {}) && c.started == [] && Feasible(g, c, Registrations(order))
    ensures var r := RunOps(g, c, [], Registrations(order)).0;
      CoordOk(r, []) && Stored(g, r, {}) && r.started == [] && r.registered == c.registered + Elems(order)
    decreases |order|
  {
    hide CoordOk, Stored;
    if order != [] {
      ElemsCons(order);
      var op := RegisterNode(order[0]);
      assert Registrations(order)[1..] == Registrations(order[1..]);
      RegisterKeepsOk(g, c, order[0], []);
      RegisterKeepsStored(g, c, {}, order[0]);
      RegistrationsRegister(g, Register(g, c, order[0]), order[1..]);
      var none: seq<Emitted> := [];
      assert none + none == none;
    }
  }

  lemma {:induction false} RegistrationsSendNothing(g: Graph, c: Coord, order: seq<NodeId>)
    requires Wf(g) && Feasible(g, c, Registrations(order))
    ensures RunOps(g, c, [], Registrations(order)).1 == []
    decreases |order|
  {
    if order != [] {
      assert Registrations(order)[1..] == Registrations(order[1..]);
      var none: seq<Emitted> := [];
      assert none + none == none;
      RegistrationsSendNothing(g, Register(g, c, order[0]), order[1..]);
    }
  }

  lemma StartedTookNothing(g: Graph, s: State)
    ensures Elems(Started(g, s).core.taken) == {}
  {
  }

  lemma WorldStartedIsOk(g: Graph, inactive: set<NodeId>, s: State, pool: Pool, order: seq<NodeId>)
    requires Wf(g) && Fresh(g, inactive, s) && Elems(order) == ResponseNodes(g)
    ensures WorldOk(g, inactive, WorldStarted(g, s, pool, order))
  {
    hide CoordOk, Inv, Reached, RunOps, Feasible, Started;
    StartedIsInv(g, inactive, s);
    StartIsReached(g, s);
    InitialIsOk();
    RegistrationsAreFeasible(g, INITIAL, order);
    RegistrationsRegister(g, INITIAL, order);
    StartedTookNothing(g, s);
  }

  /** A graph as `Graph.init` leaves it, with its inactive roots marked, starts with all invariants;
      and if all its sources are ROOT nodes, of which the active root is one among several, they
      are the root and the inactive roots. */
  lemma InitialisedIsOk(g: Graph, order: seq<NodeId>, pool: Pool, responses: seq<NodeId>)
    requires Wf(g) && RootsAreSources(g) && NoDup(order) && Elems(order) == g.nodes.Keys
    requires Elems(responses) == ResponseNodes(g)
    ensures WorldOk(g, Elems(InactiveRoots(g, order)), WorldStarted(g, MarkInactiveRoots(g, order), pool, responses))
    ensures (forall n :: n in g.nodes && IsSource(g, n) ==> Kind(g, n) == Root) && |RootNodes(g, order)| > 1
            ==> Rooted(g, Elems(InactiveRoots(g, order)))
  {
    hide Fresh, WorldOk;
    WorldStartedIsOk(g, Elems(InactiveRoots(g, order)), MarkInactiveRoots(g, order), pool, responses);
    assert forall n :: n in order <==> n in Elems(order);
  }

  // ---------- every handler can run ----------

  lemma {:induction false} EdgeOpsAreFeasible(g: Graph, env: Env, c: Coord, es: seq<EdgeId>, order: seq<NodeId>,
      log: seq<Emitted>)
    requires Wf(g) && CoordOk(c, log) && multiset(order) == multiset(c.registered)
    ensures Feasible(g, c, EdgeOps(env, es, order))
    decreases |es|
  {
    hide CoordOk, OnEdgeTaken;
    if es != [] {
      var (c1, evs) := OnEdgeTaken(env, c, es[0], order);
      OnEdgeTakenKeepsOk(env, c, es[0], order, log);
      SameRegistered(env, c, es[0], order, log);
      EdgeOpsAreFeasible(g, env, c1, es[1..], order, log + evs);
      assert EdgeOps(env, es, order)[1..] == EdgeOps(env, es[1..], order);
    }
  }

  lemma SameRegistered(env: Env, c: Coord, e: EdgeId, order: seq<NodeId>, log: seq<Emitted>)
    requires CoordOk(c, log) && multiset(order) == multiset(c.registered)
    ensures OnEdgeTaken(env, c, e, order).0.registered == c.registered
  {
    hide WellQueued, Sorted, Bounded, AllDelivered;
    assert forall n :: n in order <==> multiset(order)[n] > 0;
    OnEdgeTakenEffect(env, c, e, order);
  }

  /** The coordinator stops a handler exactly when a chunk arrives for a closed stream. */
  lemma HandlersAreFeasible(g: Graph, inactive: set<NodeId>, w: World, ev: Event, pool: Pool, order: seq<NodeId>)
    requires Wf(g) && WorldOk(g, inactive, w) && multiset(order) == multiset(w.co.registered)
    requires Midway(ev) || Pending(g, w.e.core.s.edge, ev.node, Out(g, ev.node))
    ensures Feasible(g, w.co, OpsFor(g, w.e.core, ev, pool, order)) <==>
      !(ev.Chunk? && ev.selector in w.co.streams.closed)
  {
    hide Inv, Reached, CoordOk, Stored, InOrder, Pending, CompletedWith, TakenOn;
    var c := w.e.core;
    var ops := OpsFor(g, c, ev, pool, order);
    if Midway(ev) {
      if ev.Chunk? { assert ops[1..] == []; }
    } else {
      var handle := CompletedWith(g, c, ev);
      var rest := TakenOps(g, c, ev, pool, order);
      if handle.Some? {
        var env := EnvOf(g, AfterSkips(g, c.s, ev.node, handle.value, AsBranch(g, ev)), pool);
        EdgeOpsAreFeasible(g, env, w.co, TakenList(g, ev.node, handle.value), order, w.log);
        if ev.Succeeded? {
          var env0 := EnvOf(g, c.s, pool);
          TryFlushKeepsOk(env0, w.co, w.log);
          TryFlushFrame(env0, w.co);
          EdgeOpsAreFeasible(g, env, TryFlush(env0, w.co).0, TakenList(g, ev.node, handle.value), order,
            w.log + TryFlush(env0, w.co).1);
        }
      }
      if ev.Succeeded? { assert ops[1..] == rest; }
    }
  }

  /** The dispatcher is never stuck on an event: either its handler runs to the end or, for a
      chunk of a closed stream and for an update with a malformed selector, it raises. */
  lemma DispatcherGoesOn(g: Graph, inactive: set<NodeId>, w: World, outputs: map<string, Value>, order: seq<NodeId>)
    returns (r: World)
    requires Wf(g) && WorldOk(g, inactive, w) && multiset(order) == multiset(w.co.registered)
    requires w.e.events != [] && !w.e.stopped && w.e.core.crashed == {} && !w.e.refused
    ensures WorldNext(g, w, if Refuses(w.co, w.e.events[0]) then Refuse else Dispatch, outputs, order, r)
  {
    hide CoreOk, Reached, CoordOk, Stored, InOrder, Pending, HandleEvent, OpsFor, OutputsAfter, PoolAfter;
    var e, ev := w.e, w.e.events[0];
    if Refuses(w.co, ev) {
      r := w.(e := e.(events := e.events[1..], refused := true, flags := e.flags.(error := true, completed := true)));
    } else {
      if !Midway(ev) { DispatchIsEnabled(g, inactive, e); }
      var pool := PoolAfter(g, e.core, ev, outputs, w.pool);
      HandlersAreFeasible(g, inactive, w, ev, pool, order);
      var (c, f) := HandleEvent(g, e.core, e.flags, ev);
      var (co, log) := RunOps(g, w.co, w.log, OpsFor(g, e.core, ev, pool, order));
      r := World(e.(core := c, flags := f, events := e.events[1..]), co, pool,
                 OutputsAfter(g, e.core, ev, outputs, w.outputs), log);
    }
  }

  // ---------- runs ----------

  ghost predicate IsWorldRun(g: Graph, trace: seq<World>, moves: seq<Move>)
    requires Wf(g)
  {
    && |trace| == |moves| + 1
    && forall i :: 0 <= i < |moves| ==> WorldNext(g, trace[i], moves[i].step, moves[i].outputs, moves[i].order,
      trace[i + 1])
  }

  lemma {:induction false} WorldRunKeepsOk(g: Graph, inactive: set<NodeId>, trace: seq<World>, moves: seq<Move>,
      i: nat, j: nat)
    requires Wf(g) && Promoted(g) && IsWorldRun(g, trace, moves) && WorldOk(g, inactive, trace[0])
    requires i <= j < |trace|
    ensures WorldOk(g, inactive, trace[j])
    ensures trace[i].co.started <= trace[j].co.started && trace[i].log <= trace[j].log
    decreases j
  {
    hide WorldOk, WorldNext;
    if j > 0 {
      WorldRunKeepsOk(g, inactive, trace, moves, if i < j then i else j - 1, j - 1);
      var m := moves[j - 1];
      WorldStepKeepsOk(g, inactive, trace[j - 1], m.step, m.outputs, m.order, trace[j]);
    }
  }

  /** A response node whose session has started is not SKIPPED then or in any later state. */
  lemma StartedIsNeverSkipped(g: Graph, inactive: set<NodeId>, trace: seq<World>, moves: seq<Move>, i: nat, j: nat,
      r: NodeId)
    requires Wf(g) && Promoted(g) && IsWorldRun(g, trace, moves) && WorldOk(g, inactive, trace[0])
    requires i <= j < |trace| && r in trace[i].co.started
    ensures NodeMark(trace[j].e.core.s, r) != Skipped
  {
    hide WorldOk, WorldNext;
    WorldRunKeepsOk(g, inactive, trace, moves, i, j);
    var a, b := trace[i].co.started, trace[j].co.started;
    var k :| 0 <= k < |a| && a[k] == r;
    assert b[k] == r;
    StartedIsNotSkipped(g, inactive, trace[j], r);
  }

  /** A session has started exactly when on some simple path from the root the edges out of the
      branches, containers, response nodes and assigners of its variables have been taken; it waits
      for no other edge. */
  lemma StartsExactlyWhenReachable(g: Graph, inactive: set<NodeId>, w: World, r: NodeId)
    requires Wf(g) && WorldOk(g, inactive, w) && r in ResponseNodes(g) && r != g.root
    ensures var taken := Elems(w.e.core.taken);
      r in w.co.started <==>
        taken != {} && exists p ::
          IsSimplePath(g, g.root, p, r) && forall e :: e in p && Decides(g, Tail(g, e), r) ==> e in taken
  {
    hide Inv, Reached, CoordOk, IsSimplePath, Startable, Decides;
    CoordHasOneSessionEach(w.co, w.log);
    StartedIsStartable(g, w.co, Elems(w.e.core.taken), r);
    StartableMeansPath(g, Elems(w.e.core.taken), r);
  }

  /** Whatever the response node `d` on every path to `n` sends is emitted before anything that
      `n` sends: sessions are numbered by their start. */
  lemma DominatorSpeaksFirst(g: Graph, inactive: set<NodeId>, w: World, d: NodeId, n: NodeId, i: nat, k: nat, a: nat,
      b: nat)
    requires Wf(g) && WorldOk(g, inactive, w)
    requires Kind(g, d) == Response && d != g.root && d != n && Dominates(g, d, n)
    requires k < |w.co.started| && w.co.started[k] == n
    requires a < |w.log| && b < |w.log| && w.log[b].session == k
    requires i < |w.co.started| && w.co.started[i] == d && w.log[a].session == i
    ensures a < b
  {
    hide Inv, Reached, Stored, IsSimplePath, Dominates, CoordOk, Sorted;
    CoordHasOneSessionEach(w.co, w.log);
    assert StartsInOrder(g, w.co.started, k);
    var j :| 0 <= j < k && w.co.started[j] == d;
    DistinctIndices(w.co.started, i, j);
    if b <= a { SortedTurns(w.log, b, a); }
  }

  lemma SortedTurns(log: seq<Emitted>, b: nat, a: nat)
    requires Sorted(log) && b <= a < |log|
    ensures log[b].session <= log[a].session
  {
    assert b < a ==> Before(log[b], log[a]);
  }

  lemma OccursTwice(xs: seq<NodeId>, i: nat, j: nat)
    requires i < j < |xs| && xs[i] == xs[j]
    ensures multiset(xs)[xs[i]] >= 2
  {
    assert xs == xs[..j] + xs[j..];
    assert xs[i] in xs[..j] && xs[j] in xs[j..];
  }

  lemma DistinctIndices(xs: seq<NodeId>, i: nat, j: nat)
    requires NoDup(xs) && i < |xs| && j < |xs|
    ensures xs[i] == xs[j] ==> i == j
  {
    if i < j && xs[i] == xs[j] {
      OccursTwice(xs, i, j);
    }
    if j < i && xs[i] == xs[j] {
      OccursTwice(xs, j, i);
    }
  }

  /** ... and such a `d` has started whenever `n` has. */
  lemma DominatorHasStarted(g: Graph, inactive: set<NodeId>, w: World, d: NodeId, n: NodeId)
    requires Wf(g) && WorldOk(g, inactive, w)
    requires Kind(g, d) == Response && d != g.root && d != n && Dominates(g, d, n) && n in w.co.started
    ensures d in w.co.started
  {
    hide Inv, Reached, Stored, IsSimplePath, Dominates, CoordOk;
    var k :| 0 <= k < |w.co.started| && w.co.started[k] == n;
    assert StartsInOrder(g, w.co.started, k);
  }
}
