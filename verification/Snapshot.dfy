/** Pausing, dumping the runtime state, restoring it, attaching a graph and resuming
    (graph_runtime_state.py, graph_execution.py, coordinator.py `dumps` and `loads`). Snapshots are
    records of lists; maps are listed in some order and rebuilt. */
module Snapshot {
  import opened Templates
  import opened VariablePool
  import opened Graphs
  import opened Traversal
  import opened Marking
  import opened Scheduler
  import opened Runs
  import opened Paths
  import opened Coordinator
  import opened Sessions
  import opened CoordinatorRuns
  import opened StoredPaths
  import opened Reachability
  import opened StreamingRuns
  import opened World
  import opened WorldRuns

  // ---------- maps as lists ----------

  /** The entries of `m` in the order of `keys`. */
  function ListOf<K, V>(m: map<K, V>, keys: seq<K>): seq<(K, V)>
    requires forall k :: k in keys ==> k in m
    decreases |keys|
  {
    if keys == [] then [] else [(keys[0], m[keys[0]])] + ListOf(m, keys[1..])
  }

  /** A dictionary comprehension: later entries win. */
  function MapOf<K, V>(items: seq<(K, V)>): map<K, V>
    decreases |items|
  {
    if items == [] then map[] else MapOf(items[..|items| - 1])[items[|items| - 1].0 := items[|items| - 1].1]
  }

  ghost predicate Lists<K(!new)>(keys: seq<K>, s: set<K>) { forall k :: k in keys <==> k in s }

  lemma {:induction false} ListOfSnoc<K, V>(m: map<K, V>, keys: seq<K>, k: K)
    requires forall j :: j in keys + [k] ==> j in m
    ensures (forall j :: j in keys ==> j in m) && k in m
    ensures ListOf(m, keys + [k]) == ListOf(m, keys) + [(k, m[k])]
    decreases |keys|
  {
    assert k in keys + [k] && forall j :: j in keys ==> j in keys + [k];
    if keys == [] {
      assert ([] + [k])[1..] == [];
    } else {
      assert (keys + [k])[1..] == keys[1..] + [k];
      ListOfSnoc(m, keys[1..], k);
    }
  }

  lemma {:induction false} MapOfListOf<K, V>(m: map<K, V>, keys: seq<K>)
    requires forall k :: k in keys ==> k in m
    ensures forall k :: k in MapOf(ListOf(m, keys)) <==> k in keys
    ensures forall k :: k in keys ==> MapOf(ListOf(m, keys))[k] == m[k]
    decreases |keys|
  {
    if keys != [] {
      var front, last := keys[..|keys| - 1], keys[|keys| - 1];
      assert keys == front + [last];
      ListOfSnoc(m, front, last);
      MapOfListOf(m, front);
      var items := ListOf(m, keys);
      assert items[..|items| - 1] == ListOf(m, front);
    }
  }

  /** Listing a map and rebuilding it gives the map back, whatever the order. */
  lemma RebuiltMap<K(!new), V>(m: map<K, V>, keys: seq<K>)
    requires Lists(keys, m.Keys)
    ensures MapOf(ListOf(m, keys)) == m
  {
    MapOfListOf(m, keys);
  }

  // ---------- the coordinator ----------

  datatype SessionDump = SessionDump(node: NodeId, index: nat)

  datatype CoordDump = CoordDump(
    responses: seq<NodeId>,
    active: Option<SessionDump>,
    waiting: seq<SessionDump>,
    pending: seq<SessionDump>,
    paths: seq<(NodeId, seq<seq<EdgeId>>)>,
    buffers: seq<(Selector, seq<BufferedChunk>)>,
    positions: seq<(Selector, nat)>,
    closed: seq<Selector>)

  /** The orders in which the sets and maps of the coordinator are listed. */
  datatype Orders = Orders(responses: seq<NodeId>, pending: seq<NodeId>, paths: seq<NodeId>,
                           buffers: seq<Selector>, positions: seq<Selector>, closed: seq<Selector>)

  ghost predicate ListsCoord(o: Orders, c: Coord) {
    && Lists(o.responses, c.registered) && Lists(o.pending, c.pending.Keys) && Lists(o.paths, c.paths.Keys)
    && Lists(o.buffers, c.streams.buffers.Keys) && Lists(o.positions, c.streams.positions.Keys)
    && Lists(o.closed, c.streams.closed)
  }

  function DumpSession(s: Session): SessionDump { SessionDump(s.node, s.index) }

  function DumpSessions(ss: seq<Session>): seq<SessionDump>
    decreases |ss|
  {
    if ss == [] then [] else [DumpSession(ss[0])] + DumpSessions(ss[1..])
  }

  function PendingSessions(pending: map<NodeId, Session>, keys: seq<NodeId>): seq<Session>
    requires forall k :: k in keys ==> k in pending
    decreases |keys|
  {
    if keys == [] then [] else [pending[keys[0]]] + PendingSessions(pending, keys[1..])
  }

  /** `ResponseStreamCoordinator.dumps`. */
  ghost function DumpCoord(c: Coord, o: Orders): CoordDump
    requires ListsCoord(o, c)
  {
    CoordDump(
      o.responses,
      if c.active.Some? then Some(DumpSession(c.active.value)) else None,
      DumpSessions(c.waiting),
      DumpSessions(PendingSessions(c.pending, o.pending)),
      ListOf(c.paths, o.paths),
      ListOf(c.streams.buffers, o.buffers),
      ListOf(c.streams.positions, o.positions),
      o.closed)
  }

  /** `_session_from_state` raises for a node that the graph does not have; otherwise the
      template comes from the node. */
  function LoadSession(g: Graph, d: SessionDump): Option<Session> {
    if d.node in g.nodes then Some(Session(d.node, Template(g, d.node), d.index)) else None
  }

  function LoadSessions(g: Graph, ds: seq<SessionDump>): Option<seq<Session>>
    decreases |ds|
  {
    if ds == [] then Some([])
    else
      var s, rest := LoadSession(g, ds[0]), LoadSessions(g, ds[1..]);
      if s.None? || rest.None? then None else Some([s.value] + rest.value)
  }

  function ByNode(ss: seq<Session>): seq<(NodeId, Session)>
    decreases |ss|
  {
    if ss == [] then [] else [(ss[0].node, ss[0])] + ByNode(ss[1..])
  }

  /** Positions, with 0 for buffers that have none. */
  function WithDefaults(positions: map<Selector, nat>, buffers: map<Selector, seq<BufferedChunk>>): map<Selector, nat> {
    (map sel | sel in buffers :: 0) + positions
  }

  /** `ResponseStreamCoordinator.loads`; history is not part of a snapshot. */
  function LoadCoord(g: Graph, d: CoordDump): Option<Coord> {
    var waiting, pending := LoadSessions(g, d.waiting), LoadSessions(g, d.pending);
    var active := if d.active.Some? then LoadSession(g, d.active.value) else None;
    if waiting.None? || pending.None? || (d.active.Some? && active.None?) then None
    else
      var buffers := MapOf(d.buffers);
      Some(Coord(active, waiting.value, MapOf(ByNode(pending.value)), Elems(d.responses), MapOf(d.paths),
                 Streams(buffers, WithDefaults(MapOf(d.positions), buffers), Elems(d.closed)), [], 0))
  }

  /** Sessions belong to nodes of the graph and carry their templates. */
  ghost predicate Belongs(g: Graph, s: Session) { s.node in g.nodes && TemplateOf(g, s) }

  ghost predicate CoordBelongs(g: Graph, c: Coord) {
    && (c.active.Some? ==> Belongs(g, c.active.value))
    && (forall i :: 0 <= i < |c.waiting| ==> Belongs(g, c.waiting[i]))
    && (forall n :: n in c.pending ==> Belongs(g, c.pending[n]) && c.pending[n].node == n)
    && c.streams.positions.Keys == c.streams.buffers.Keys
  }

  lemma {:induction false} SessionsRoundTrip(g: Graph, ss: seq<Session>)
    requires forall i :: 0 <= i < |ss| ==> Belongs(g, ss[i])
    ensures LoadSessions(g, DumpSessions(ss)) == Some(ss)
    decreases |ss|
  {
    if ss != [] {
      SessionsRoundTrip(g, ss[1..]);
      assert ss == [ss[0]] + ss[1..];
    }
  }

  lemma {:induction false} PendingIsListed(g: Graph, pending: map<NodeId, Session>, keys: seq<NodeId>)
    requires forall k :: k in keys ==> k in pending
    requires forall n :: n in pending ==> Belongs(g, pending[n]) && pending[n].node == n
    ensures forall i :: 0 <= i < |PendingSessions(pending, keys)| ==> Belongs(g, PendingSessions(pending, keys)[i])
    ensures ByNode(PendingSessions(pending, keys)) == ListOf(pending, keys)
    decreases |keys|
  {
    if keys != [] { PendingIsListed(g, pending, keys[1..]); }
  }

  /** Dumping and loading the coordinator gives it back. */
  lemma CoordRoundTrip(g: Graph, c: Coord, o: Orders)
    requires ListsCoord(o, c) && CoordBelongs(g, c)
    ensures LoadCoord(g, DumpCoord(c, o)) == Some(c.(started := [], ended := 0))
  {
    hide Belongs, ListOf, MapOf, PendingSessions, ByNode, DumpSessions, LoadSessions;
    SessionsRoundTrip(g, c.waiting);
    PendingIsListed(g, c.pending, o.pending);
    SessionsRoundTrip(g, PendingSessions(c.pending, o.pending));
    RebuiltMap(c.pending, o.pending);
    RebuiltMap(c.paths, o.paths);
    RebuiltMap(c.streams.buffers, o.buffers);
    RebuiltMap(c.streams.positions, o.positions);
    assert Elems(o.responses) == c.registered && Elems(o.closed) == c.streams.closed;
    assert WithDefaults(c.streams.positions, c.streams.buffers) == c.streams.positions;
    if c.active.Some? { ActiveRoundTrip(g, c.active.value); }
  }

  lemma ActiveRoundTrip(g: Graph, s: Session)
    requires Belongs(g, s)
    ensures LoadSession(g, DumpSession(s)) == Some(s)
  {
  }

  // ---------- the runtime state ----------

  datatype Dump = Dump(
    coord: CoordDump,
    queue: seq<NodeId>,
    nodes: map<NodeId, Mark>,
    edges: map<EdgeId, Mark>,
    retries: seq<(NodeId, nat)>,
    flags: Flags,
    paused: seq<NodeId>,
    deferred: seq<NodeId>,
    pool: Pool,
    outputs: map<string, string>)

  /** `GraphRuntimeState.dumps` with a graph attached; the coordinator part is listed by `o`, the
      others in the given orders. */
  ghost function DumpWorld(g: Graph, w: World, o: Orders, retried: seq<NodeId>, paused: seq<NodeId>,
      deferred: seq<NodeId>): Dump
    requires ListsCoord(o, w.co) && Lists(retried, w.e.core.retries.Keys)
  {
    var c := w.e.core;
    Dump(DumpCoord(w.co, o), c.s.queue,
         map n | n in g.nodes :: NodeMark(c.s, n), map d | d in g.edges :: EdgeMark(c.s.edge, d),
         ListOf(c.retries, retried), w.e.flags, paused, deferred, w.pool, w.outputs)
  }

  /** `apply_pending_graph_state`: marks of the snapshot replace those that the freshly built
      graph came with, where the graph has the node or edge. */
  function ApplyMarks(g: Graph, blank: State, d: Dump): State {
    blank.(node := blank.node + map n | n in d.nodes && n in g.nodes :: d.nodes[n],
           edge := blank.edge + map e | e in d.edges && e in g.edges :: d.edges[e])
  }

  /** `from_snapshot`, `attach_graph` and a new engine, which executes nothing yet. What a snapshot
      does not hold is history: `past` supplies it. */
  ghost function RestoreWorld(g: Graph, blank: State, d: Dump, past: World): Option<World> {
    var co := LoadCoord(g, d.coord);
    if co.None? then None
    else
      var s := ApplyMarks(g, blank, d).(queue := d.queue, executing := {});
      var c := Core(s, past.e.core.finished, past.e.core.failed, {}, Elems(d.paused), Elems(d.deferred),
                    MapOf(d.retries), past.e.core.taken);
      Some(World(Engine(c, d.flags, {}, [], false, false, true),
        co.value.(started := past.co.started, ended := past.co.ended), d.pool, d.outputs, past.log))
  }

  /** The dispatcher has ended a paused run with nothing executing. */
  predicate PausedAndDrained(w: World) { w.e.stopped && w.e.flags.paused && w.e.core.s.executing == {} }

  /** Equal but for how the marks of nodes and edges are stored; the new engine was not told to
      stop. */
  ghost predicate SameWorld(g: Graph, w: World, r: World) {
    && r == w.(e := w.e.(abandoned := false,
                         core := w.e.core.(s := w.e.core.s.(node := r.e.core.s.node, edge := r.e.core.s.edge))))
    && (forall n :: n in g.nodes ==> NodeMark(r.e.core.s, n) == NodeMark(w.e.core.s, n))
    && (forall d :: d in g.edges ==> EdgeMark(r.e.core.s.edge, d) == EdgeMark(w.e.core.s.edge, d))
  }

  /** Whatever marks the attached graph was initialised with, all of them are replaced. */
  lemma MarksRestored(g: Graph, s: State, blank: State, d: Dump)
    requires d.nodes == (map n | n in g.nodes :: NodeMark(s, n))
    requires d.edges == (map e | e in g.edges :: EdgeMark(s.edge, e))
    ensures var r := ApplyMarks(g, blank, d);
      && (forall n :: n in g.nodes ==> NodeMark(r, n) == NodeMark(s, n))
      && (forall e :: e in g.edges ==> EdgeMark(r.edge, e) == EdgeMark(s.edge, e))
  {
  }

  lemma SetsRestored(c: Core, paused: seq<NodeId>, deferred: seq<NodeId>, retried: seq<NodeId>)
    requires Lists(paused, c.paused) && Lists(deferred, c.deferred) && Lists(retried, c.retries.Keys)
    ensures Elems(paused) == c.paused && Elems(deferred) == c.deferred && MapOf(ListOf(c.retries, retried)) == c.retries
  {
    RebuiltMap(c.retries, retried);
  }

  /** Dumping a paused and drained run, restoring it and attaching a graph with the same nodes and
      edges, whatever marks that graph was initialised with, gives the same state back: marks,
      ready queue, retry counts, flags, parked nodes, pool, sessions, stored paths and streams. */
  lemma RestoreRoundTrip(g: Graph, inactive: set<NodeId>, w: World, blank: State, o: Orders,
                         retried: seq<NodeId>, paused: seq<NodeId>, deferred: seq<NodeId>)
    requires Wf(g) && Inv(g, inactive, w.e) && PausedAndDrained(w) && CoordBelongs(g, w.co)
    requires ListsCoord(o, w.co) && Lists(retried, w.e.core.retries.Keys)
    requires Lists(paused, w.e.core.paused) && Lists(deferred, w.e.core.deferred)
    ensures var r := RestoreWorld(g, blank, DumpWorld(g, w, o, retried, paused, deferred), w);
      r.Some? && SameWorld(g, w, r.value)
  {
    hide CoreOk, ListOf, MapOf, LoadCoord, DumpCoord, CoordBelongs, ListsCoord, Elems, Lists, EdgeMark, ApplyMarks;
    CoordRoundTrip(g, w.co, o);
    CompletionIsSound(g, inactive, w.e);
    LedgerIsEmpty(w.e);
    SetsRestored(w.e.core, paused, deferred, retried);
    var d := DumpWorld(g, w, o, retried, paused, deferred);
    MarksRestored(g, w.e.core.s, blank, d);
  }

  /** Sessions always belong to the graph, and every buffer has a position. */
  lemma {:induction false} RunKeepsBelongs(g: Graph, env: Env, c: Coord)
    requires c.active.Some? && CoordBelongs(g, c)
    ensures CoordBelongs(g, RunSegments(env, c).0)
    decreases |c.active.value.template| - c.active.value.index
  {
    var s := c.active.value;
    if s.index < |s.template| {
      match s.template[s.index]
      case Text(_) => RunKeepsBelongs(g, env, Advance(c));
      case Variable(sel) =>
        if SourceSkipped(env, sel) {
          RunKeepsBelongs(g, env, Advance(c));
        } else {
          var c1 := c.(streams := ReadAll(c.streams, sel));
          assert c1.streams.positions.Keys == c.streams.positions.Keys;
          if VariableCompletes(env, c.streams, sel) { RunKeepsBelongs(g, env, Advance(c1)); }
        }
    }
  }

  lemma {:induction false} FlushKeepsBelongs(g: Graph, env: Env, c: Coord)
    requires CoordBelongs(g, c)
    ensures CoordBelongs(g, TryFlush(env, c).0)
    decreases |c.waiting|
  {
    hide Belongs, RunSegments;
    if c.active.Some? {
      var c1 := RunSegments(env, c).0;
      RunKeepsBelongs(g, env, c);
      if IsComplete(c1.active.value) && c.waiting != [] {
        FlushKeepsBelongs(g, env, c1.(ended := c.ended + 1, active := Some(c.waiting[0]), waiting := c.waiting[1..]));
      }
    }
  }

  lemma {:induction false} EdgeKeepsBelongs(g: Graph, env: Env, c: Coord, e: EdgeId, order: seq<NodeId>)
    requires CoordBelongs(g, c)
    ensures CoordBelongs(g, OnEdgeTaken(env, c, e, order).0)
    decreases |order|
  {
    hide Belongs, TryFlush;
    if order != [] {
      var n := order[0];
      if n in c.paths && n in c.pending {
        FlushKeepsBelongs(g, env, c.(paths := c.paths[n := RemoveFromAll(c.paths[n], e)], pending := c.pending - {n},
                                     started := c.started + [n], active := Some(c.pending[n])));
      }
      EdgeKeepsBelongs(g, env, OnEdgeTakenFor(env, c, e, n).0, e, order[1..]);
    }
  }

  /** Every operation keeps the coordinator restorable. */
  lemma ApplyKeepsBelongs(g: Graph, c: Coord, op: Op)
    requires Wf(g) && Valid(c, op) && CoordBelongs(g, c) && (op.RegisterNode? ==> op.node in g.nodes)
    ensures CoordBelongs(g, Apply(g, c, op).0)
  {
    match op
    case RegisterNode(_) =>
    case Flush(env) => FlushKeepsBelongs(g, env, c);
    case ChunkIn(env, sel, chunk) =>
      var st := Append(c.streams, sel, chunk);
      FlushKeepsBelongs(g, env, c.(streams := if chunk.isFinal then Close(st, sel) else st));
    case EdgeIn(env, e, order) => EdgeKeepsBelongs(g, env, c, e, order);
  }

  // ---------- going on from there ----------

  /** The invariants depend on the marks only as they are looked up. */
  lemma SameMarksOk(g: Graph, inactive: set<NodeId>, s: State, r: State, finished: map<NodeId, string>,
      active: set<NodeId>, on: set<NodeId>)
    requires Wf(g) && MarksOk(g, inactive, s, finished, active, on)
    requires forall n :: n in g.nodes ==> NodeMark(r, n) == NodeMark(s, n)
    requires forall d :: d in g.edges ==> EdgeMark(r.edge, d) == EdgeMark(s.edge, d)
    ensures MarksOk(g, inactive, r, finished, active, on)
  {
    forall d | d in g.edges ensures EdgeOk(g, r, finished, d) { assert EdgeOk(g, s, finished, d); }
    forall n | n in g.nodes ensures SkipOk(g, r, inactive, n) && NodeOk(g, r, active, on, n) {
      assert SkipOk(g, s, inactive, n) && NodeOk(g, s, active, on, n);
    }
  }

  lemma SameWorldIsOk(g: Graph, inactive: set<NodeId>, w: World, r: World)
    requires Wf(g) && WorldOk(g, inactive, w) && SameWorld(g, w, r)
    ensures WorldOk(g, inactive, r)
  {
    hide MarksOk, CoordOk, Stored, InOrder;
    var c, q := w.e.core, r.e.core;
    assert Active(q) == Active(c) && On(q) == On(c);
    SameMarksOk(g, inactive, c.s, q.s, c.finished, Active(c), On(c));
    assert forall k :: Retried(g, c, k) ==> Retried(g, q, k);
    assert forall i :: 0 <= i < |w.e.events| ==> ChunkOk(w.e, i) ==> ChunkOk(r.e, i);
  }

  /** Pause, snapshot, restore, resume: the restored world has every invariant of runs, and
      resuming it schedules exactly the paused and the deferred nodes, each once, and the run is not
      paused any more. */
  lemma RestoredResumes(g: Graph, inactive: set<NodeId>, w: World, r: World, paused: seq<NodeId>,
      deferred: seq<NodeId>, after: Engine)
    requires Wf(g) && WorldOk(g, inactive, w) && SameWorld(g, w, r) && Next(g, r.e, Resume(paused, deferred), after)
    ensures WorldOk(g, inactive, r) && Inv(g, inactive, after)
    ensures after.core.s.executing == w.e.core.paused + w.e.core.deferred
    ensures multiset(after.core.s.queue) == multiset(w.e.core.paused) + multiset(w.e.core.deferred)
    ensures Active(after.core) == Active(w.e.core)
    ensures forall d :: d in g.edges ==> EdgeMark(after.core.s.edge, d) == EdgeMark(w.e.core.s.edge, d)
    ensures !after.flags.paused && !after.stopped && !after.abandoned
    ensures after.core.paused == {} && after.core.deferred == {}
    ensures after.flags.aborted == w.e.flags.aborted && after.flags.error == w.e.flags.error &&
      after.flags.completed == w.e.flags.completed
  {
    hide Inv, CoordOk, Stored, Reached, InOrder, Next;
    SameWorldIsOk(g, inactive, w, r);
    ResumeSchedulesParked(g, inactive, r.e, paused, deferred, after);
  }

  // ---------- over runs ----------

  lemma {:induction false} RunOpsKeepBelongs(g: Graph, c: Coord, log: seq<Emitted>, ops: seq<Op>)
    requires Wf(g) && Feasible(g, c, ops) && CoordBelongs(g, c)
    requires forall i :: 0 <= i < |ops| && ops[i].RegisterNode? ==> ops[i].node in g.nodes
    ensures CoordBelongs(g, RunOps(g, c, log, ops).0)
    decreases |ops|
  {
    hide CoordBelongs, Apply;
    if ops != [] {
      ApplyKeepsBelongs(g, c, ops[0]);
      RunOpsKeepBelongs(g, Apply(g, c, ops[0]).0, log + Apply(g, c, ops[0]).1, ops[1..]);
    }
  }

  lemma StepKeepsBelongs(g: Graph, w: World, step: Step, outputs: map<string, Value>, order: seq<NodeId>, r: World)
    requires Wf(g) && WorldNext(g, w, step, outputs, order, r) && CoordBelongs(g, w.co)
    ensures CoordBelongs(g, r.co)
  {
    hide CoordBelongs, Feasible, RunOps, Pending, HandleEvent, Resumed;
    match step
    case Dispatch =>
      var ev := w.e.events[0];
      assert Midway(ev) || Pending(g, w.e.core.s.edge, ev.node, Out(g, ev.node));
      var pool := PoolAfter(g, w.e.core, ev, outputs, w.pool);
      ReportedIsTaken(g, w.e.core, ev, pool, order);
      RunOpsKeepBelongs(g, w.co, w.log, OpsFor(g, w.e.core, ev, pool, order));
    case Resume(_, _) =>
      assert forall i :: 0 <= i < |order| ==> order[i] in Elems(order);
      RunOpsKeepBelongs(g, w.co, w.log, Registrations(order));
    case _ =>
  }

  lemma {:induction false} WorldRunBelongs(g: Graph, trace: seq<World>, moves: seq<Move>, i: nat)
    requires Wf(g) && IsWorldRun(g, trace, moves) && CoordBelongs(g, trace[0].co) && i < |trace|
    ensures CoordBelongs(g, trace[i].co)
  {
    hide WorldNext, CoordBelongs;
    if i > 0 {
      WorldRunBelongs(g, trace, moves, i - 1);
      StepKeepsBelongs(g, trace[i - 1], moves[i - 1].step, moves[i - 1].outputs, moves[i - 1].order, trace[i]);
    }
  }

  lemma StartBelongs(g: Graph, s: State, pool: Pool, order: seq<NodeId>)
    requires Wf(g) && Elems(order) == ResponseNodes(g)
    ensures CoordBelongs(g, WorldStarted(g, s, pool, order).co)
  {
    RegistrationsAreFeasible(g, INITIAL, order);
    assert forall i :: 0 <= i < |order| ==> order[i] in Elems(order);
    RunOpsKeepBelongs(g, INITIAL, [], Registrations(order));
  }

  /** In any run, the snapshot of a paused and drained state restores to the same state, and the
      restored state goes on as a state of a run would. */
  lemma SnapshotIsFaithful(g: Graph, inactive: set<NodeId>, s: State, pool: Pool, order: seq<NodeId>,
      trace: seq<World>, moves: seq<Move>, i: nat,
                           blank: State, o: Orders, retried: seq<NodeId>, paused: seq<NodeId>, deferred: seq<NodeId>)
    requires Wf(g) && Promoted(g) && Fresh(g, inactive, s) && Elems(order) == ResponseNodes(g)
    requires IsWorldRun(g, trace, moves) && trace[0] == WorldStarted(g, s, pool, order) && i < |trace|
    requires PausedAndDrained(trace[i])
    requires ListsCoord(o, trace[i].co) && Lists(retried, trace[i].e.core.retries.Keys)
    requires Lists(paused, trace[i].e.core.paused) && Lists(deferred, trace[i].e.core.deferred)
    ensures var r := RestoreWorld(g, blank, DumpWorld(g, trace[i], o, retried, paused, deferred), trace[i]);
      r.Some? && SameWorld(g, trace[i], r.value) && WorldOk(g, inactive, r.value)
  {
    var w := trace[i];
    WorldStartedIsOk(g, inactive, s, pool, order);
    StartBelongs(g, s, pool, order);
    hide IsWorldRun, CoordBelongs, Fresh, CoreOk, WorldStarted, RestoreWorld, DumpWorld, ListsCoord, Lists, SameWorld,
      CoordOk, Stored, Reached;
    WorldRunKeepsOk(g, inactive, trace, moves, i, i);
    WorldRunBelongs(g, trace, moves, i);
    RestoreRoundTrip(g, inactive, w, blank, o, retried, paused, deferred);
    SameWorldIsOk(g, inactive, w, RestoreWorld(g, blank, DumpWorld(g, w, o, retried, paused, deferred), w).value);
  }
}
