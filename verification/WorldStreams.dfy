/** Engine runs seen from the coordinator: what holds of all its runs holds inside the engine. */
module WorldStreams {
  import opened Templates
  import opened VariablePool
  import opened Graphs
  import opened Traversal
  import opened Scheduler
  import opened Runs
  import opened Coordinator
  import opened Sessions
  import opened CoordinatorRuns
  import opened World
  import opened WorldRuns

  lemma CoordRunSnoc(g: Graph, t: seq<Coord>, logs: seq<seq<Emitted>>, ops: seq<Op>, op: Op)
    requires Wf(g) && IsCoordRun(g, t, logs, ops) && Valid(t[|t| - 1], op)
    ensures var (c, evs) := Apply(g, t[|t| - 1], op);
      IsCoordRun(g, t + [c], logs + [logs[|logs| - 1] + evs], ops + [op])
  {
    hide Apply, Valid;
    var (c, evs) := Apply(g, t[|t| - 1], op);
    var t2, logs2, ops2 := t + [c], logs + [logs[|logs| - 1] + evs], ops + [op];
    forall i | 0 <= i < |ops2|
      ensures Valid(t2[i], ops2[i]) && t2[i + 1] == Apply(g, t2[i], ops2[i]).0
      ensures logs2[i + 1] == logs2[i] + Apply(g, t2[i], ops2[i]).1
    {
      if i < |ops| {
        assert t2[i] == t[i] && t2[i + 1] == t[i + 1] && ops2[i] == ops[i];
        assert logs2[i] == logs[i] && logs2[i + 1] == logs[i + 1];
      }
    }
  }

  lemma {:induction false} ExtendRun(g: Graph, t: seq<Coord>, logs: seq<seq<Emitted>>, ops: seq<Op>, more: seq<Op>)
    returns (t2: seq<Coord>, logs2: seq<seq<Emitted>>)
    requires Wf(g) && IsCoordRun(g, t, logs, ops) && Feasible(g, t[|t| - 1], more)
    ensures IsCoordRun(g, t2, logs2, ops + more) && t <= t2 && logs <= logs2
    ensures (t2[|t2| - 1], logs2[|logs2| - 1]) == RunOps(g, t[|t| - 1], logs[|logs| - 1], more)
    decreases |more|
  {
    hide Apply, Valid;
    t2, logs2 := t, logs;
    if more == [] {
      assert ops + more == ops;
    } else {
      CoordRunSnoc(g, t, logs, ops, more[0]);
      var (c, evs) := Apply(g, t[|t| - 1], more[0]);
      t2, logs2 := ExtendRun(g, t + [c], logs + [logs[|logs| - 1] + evs], ops + [more[0]], more[1..]);
      assert ops + [more[0]] + more[1..] == ops + more;
    }
  }

  /** Whether the handler of the next event has what it needs (`Runs.Next`). */
  ghost predicate CanHandle(g: Graph, w: World)
    requires Wf(g)
  {
    w.e.events != [] &&
    (Midway(w.e.events[0]) || Pending(g, w.e.core.s.edge, w.e.events[0].node, Out(g, w.e.events[0].node)))
  }

  /** What a step of the engine asks of the coordinator. */
  ghost function MoveOps(g: Graph, w: World, m: Move): seq<Op>
    requires Wf(g)
  {
    match m.step
    case Dispatch =>
      if !CanHandle(g, w) then []
      else
        var ev := w.e.events[0];
        OpsFor(g, w.e.core, ev, PoolAfter(g, w.e.core, ev, m.outputs, w.pool), m.order)
    case Resume(_, _) => Registrations(m.order)
    case _ => []
  }

  /** The operations up to state `i`: the registrations, then those of the steps. */
  ghost function OpsTo(g: Graph, order: seq<NodeId>, trace: seq<World>, moves: seq<Move>, i: nat): seq<Op>
    requires Wf(g) && i <= |moves| <= |trace|
  {
    if i == 0 then Registrations(order)
    else OpsTo(g, order, trace, moves, i - 1) + MoveOps(g, trace[i - 1], moves[i - 1])
  }

  lemma StepRunsOps(g: Graph, w: World, m: Move, r: World)
    requires Wf(g) && WorldNext(g, w, m.step, m.outputs, m.order, r)
    ensures m.step.Dispatch? ==> CanHandle(g, w)
    ensures Feasible(g, w.co, MoveOps(g, w, m)) && (r.co, r.log) == RunOps(g, w.co, w.log, MoveOps(g, w, m))
  {
    hide Pending, HandleEvent, Resumed, OpsFor, PoolAfter;
  }

  /** A step of the engine extends the run of the coordinator by what it asks of it. */
  lemma StepExtendsRun(g: Graph, w: World, m: Move, r: World, t: seq<Coord>, logs: seq<seq<Emitted>>, ops: seq<Op>)
    returns (t2: seq<Coord>, logs2: seq<seq<Emitted>>)
    requires Wf(g) && WorldNext(g, w, m.step, m.outputs, m.order, r)
    requires IsCoordRun(g, t, logs, ops) && t[|t| - 1] == w.co && logs[|logs| - 1] == w.log
    ensures IsCoordRun(g, t2, logs2, ops + MoveOps(g, w, m)) && t <= t2 && logs <= logs2
    ensures t2[|t2| - 1] == r.co && logs2[|logs2| - 1] == r.log
  {
    hide Apply, Valid, Feasible, RunOps, MoveOps, WorldNext;
    StepRunsOps(g, w, m, r);
    t2, logs2 := ExtendRun(g, t, logs, ops, MoveOps(g, w, m));
  }

  /** The states of the engine run up to `i` are found, in order, at the indices `at` of the run of
      the coordinator. */
  ghost predicate Embeds(t: seq<Coord>, logs: seq<seq<Emitted>>, trace: seq<World>, at: seq<nat>)
    requires |t| == |logs| && |at| <= |trace|
  {
    && (forall k :: 0 <= k < |at| ==> at[k] < |t| && t[at[k]] == trace[k].co && logs[at[k]] == trace[k].log)
    && (forall k, l :: 0 <= k <= l < |at| ==> at[k] <= at[l])
  }

  lemma EmbedsSnoc(t: seq<Coord>, logs: seq<seq<Emitted>>, trace: seq<World>, at: seq<nat>, t2: seq<Coord>,
      logs2: seq<seq<Emitted>>)
    requires |t| == |logs| && |t2| == |logs2| && t <= t2 && logs <= logs2 && t != [] && |at| < |trace|
    requires Embeds(t, logs, trace, at) && (forall k :: 0 <= k < |at| ==> at[k] < |t|)
    requires t2[|t2| - 1] == trace[|at|].co && logs2[|t2| - 1] == trace[|at|].log
    ensures Embeds(t2, logs2, trace, at + [|t2| - 1])
  {
  }

  lemma StartEmbeds(g: Graph, s: State, pool: Pool, order: seq<NodeId>, trace: seq<World>)
    returns (t: seq<Coord>, logs: seq<seq<Emitted>>, at: seq<nat>)
    requires Wf(g) && trace != [] && trace[0] == WorldStarted(g, s, pool, order)
    ensures IsCoordRun(g, t, logs, Registrations(order)) && |at| == 1 && Embeds(t, logs, trace, at) && at[0] == |t| - 1
  {
    hide Apply, Valid, Started;
    RegistrationsAreFeasible(g, INITIAL, order);
    RegistrationsSendNothing(g, INITIAL, order);
    t, logs := ExtendRun(g, [INITIAL], [[]], [], Registrations(order));
    at := [|t| - 1];
    assert [] + Registrations(order) == Registrations(order);
  }

  /** The coordinator's part of an engine run is the run of the coordinator under the operations
      that the steps ask for, so what `CoordinatorRuns` and `StreamingRuns` prove of all its runs
      holds of engine runs, also between two moments. */
  lemma {:induction false} WorldRunIsCoordRun(g: Graph, s: State, pool: Pool, order: seq<NodeId>, trace: seq<World>,
      moves: seq<Move>, i: nat)
    returns (t: seq<Coord>, logs: seq<seq<Emitted>>, at: seq<nat>)
    requires Wf(g) && IsWorldRun(g, trace, moves) && trace[0] == WorldStarted(g, s, pool, order) && i < |trace|
    ensures IsCoordRun(g, t, logs, OpsTo(g, order, trace, moves, i))
    ensures |at| == i + 1 && Embeds(t, logs, trace, at) && at[i] == |t| - 1
  {
    hide WorldNext, WorldStarted, MoveOps, Embeds, Apply, Valid;
    if i == 0 {
      t, logs, at := StartEmbeds(g, s, pool, order, trace);
    } else {
      t, logs, at := WorldRunIsCoordRun(g, s, pool, order, trace, moves, i - 1);
      AtIndex(t, logs, trace, at, i - 1);
      var ops := OpsTo(g, order, trace, moves, i - 1);
      var t2, logs2 := StepExtendsRun(g, trace[i - 1], moves[i - 1], trace[i], t, logs, ops);
      EmbedsSnoc(t, logs, trace, at, t2, logs2);
      t, logs, at := t2, logs2, at + [|t2| - 1];
    }
  }

  lemma AtIndex(t: seq<Coord>, logs: seq<seq<Emitted>>, trace: seq<World>, at: seq<nat>, k: nat)
    requires |t| == |logs| && |at| <= |trace| && Embeds(t, logs, trace, at) && k < |at|
    ensures at[k] < |t| && t[at[k]] == trace[k].co && logs[at[k]] == trace[k].log
    ensures forall l :: k <= l < |at| ==> at[k] <= at[l]
    ensures forall l :: 0 <= l < |at| ==> at[l] < |t|
  {
  }

  /** For instance: once the engine has read a closed stream to its end, the whole of it has been
      delivered, once and in order, and nothing more of it ever is. */
  lemma EngineDelivers(g: Graph, s: State, pool: Pool, order: seq<NodeId>, trace: seq<World>, moves: seq<Move>, i: nat,
      j: nat, sel: Selector)
    requires Wf(g) && IsWorldRun(g, trace, moves) && trace[0] == WorldStarted(g, s, pool, order) && i <= j < |trace|
    requires Drained(trace[i].co.streams, sel)
    ensures Drained(trace[j].co.streams, sel)
    ensures Delivered(trace[j].log, sel) == Texts(Buffer(trace[i].co.streams, sel))
  {
    hide WorldNext, WorldStarted, Apply, Valid, Drained, Embeds, OpsTo;
    var t, logs, at := WorldRunIsCoordRun(g, s, pool, order, trace, moves, j);
    AtIndex(t, logs, trace, at, i);
    AtIndex(t, logs, trace, at, j);
    DrainedIsDelivered(g, t, logs, OpsTo(g, order, trace, moves, j), at[i], at[j], sel);
  }
}
