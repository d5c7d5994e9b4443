/** Sequences of coordinator operations. */
module CoordinatorRuns {
  import opened Templates
  import opened VariablePool
  import opened Graphs
  import opened Paths
  import opened Coordinator
  import opened Sessions

  /** The calls that the engine makes. */
  datatype Op =
    | RegisterNode(node: NodeId)                                  // at start
    | Flush(env: Env)                                             // a node succeeded
    | ChunkIn(env: Env, selector: Selector, chunk: BufferedChunk) // a chunk event
    | EdgeIn(env: Env, edge: EdgeId, order: seq<NodeId>)          // an edge was taken

  /** Chunks arrive on open streams only; an edge is reported to every registered node once. */
  ghost predicate Valid(c: Coord, op: Op) {
    match op
    case ChunkIn(_, sel, _) => sel !in c.streams.closed
    case EdgeIn(_, _, order) => multiset(order) == multiset(c.registered)
    case _ => true
  }

  ghost function Apply(g: Graph, c: Coord, op: Op): (Coord, seq<Emitted>)
    requires Wf(g) && Valid(c, op)
  {
    match op
    case RegisterNode(n) => (Register(g, c, n), [])
    case Flush(env) => TryFlush(env, c)
    case ChunkIn(env, sel, chunk) => InterceptChunk(env, c, sel, chunk)
    case EdgeIn(env, e, order) => OnEdgeTaken(env, c, e, order)
  }

  /** Each response node has at most one session, pending or started. */
  ghost predicate OneSessionEach(c: Coord) {
    && NoDup(c.started) && Elems(c.started) + c.pending.Keys == c.registered == c.paths.Keys
    && Elems(c.started) !! c.pending.Keys
    && forall n :: n in c.pending ==> c.pending[n].node == n
  }

  ghost predicate CoordOk(c: Coord, log: seq<Emitted>) {
    WellQueued(c) && Sorted(log) && Bounded(c, log) && AllDelivered(c.streams, log) && OneSessionEach(c)
  }

  const INITIAL := Coord(None, [], map[], {}, map[], Streams(map[], map[], {}), [], 0)

  lemma InitialIsOk()
    ensures CoordOk(INITIAL, [])
  {
    forall sel ensures DeliveredPrefix(INITIAL.streams, [], sel) {
    }
    assert Elems(INITIAL.started) == {};
  }

  // ---------- what flushing leaves alone ----------

  lemma {:induction false} TryFlushFrame(env: Env, c: Coord)
    ensures var r := TryFlush(env, c).0;
      r.pending == c.pending && r.registered == c.registered && r.paths == c.paths && r.started == c.started
    decreases |c.waiting|, 1
  {
    if c.active.Some? {
      var c1 := RunSegments(env, c).0;
      if IsComplete(c1.active.value) { EndSessionFrame(env, c1); }
    }
  }

  lemma {:induction false} EndSessionFrame(env: Env, c: Coord)
    ensures var r := EndSession(env, c).0;
      r.pending == c.pending && r.registered == c.registered && r.paths == c.paths && r.started == c.started
    decreases |c.waiting|, 0
  {
    if c.waiting != [] {
      TryFlushFrame(env, c.(ended := c.ended + 1, active := Some(c.waiting[0]), waiting := c.waiting[1..]));
    }
  }

  lemma TryFlushKeepsOk(env: Env, c: Coord, log: seq<Emitted>)
    requires CoordOk(c, log)
    ensures CoordOk(TryFlush(env, c).0, log + TryFlush(env, c).1)
  {
    hide TryFlush, WellQueued, Sorted, Bounded, AllDelivered;
    TryFlushKeepsOrder(env, c, log);
    TryFlushDelivers(env, c, log);
    TryFlushFrame(env, c);
  }

  lemma InterceptChunkKeepsOk(env: Env, c: Coord, sel: Selector, chunk: BufferedChunk, log: seq<Emitted>)
    requires CoordOk(c, log) && sel !in c.streams.closed
    ensures CoordOk(InterceptChunk(env, c, sel, chunk).0, log + InterceptChunk(env, c, sel, chunk).1)
  {
    var st := Append(c.streams, sel, chunk);
    var c1 := c.(streams := if chunk.isFinal then Close(st, sel) else st);
    AppendKeepsDelivered(c.streams, sel, chunk, log);
    assert forall i :: 0 <= i < |log| ==> WithinTurn(c, log[i]) ==> WithinTurn(c1, log[i]);
    hide AllDelivered, Sorted;
    assert CoordOk(c1, log);
    TryFlushKeepsOk(env, c1, log);
  }

  /** Starting the session of a pending node: it leaves `pending` for good. */
  lemma ActiveOrQueueStarts(env: Env, c: Coord, n: NodeId)
    ensures var r := ActiveOrQueue(env, c, n).0;
      && r.pending == c.pending - {n} && r.registered == c.registered && r.paths == c.paths
      && r.started == if n in c.pending then c.started + [n] else c.started
  {
    if n in c.pending {
      var c1 := c.(pending := c.pending - {n}, started := c.started + [n]);
      TryFlushFrame(env, c1.(active := Some(c.pending[n])));
    } else {
      assert c.pending - {n} == c.pending;
    }
  }

  lemma ActiveOrQueueKeepsOk(env: Env, c: Coord, n: NodeId, log: seq<Emitted>)
    requires CoordOk(c, log)
    ensures CoordOk(ActiveOrQueue(env, c, n).0, log + ActiveOrQueue(env, c, n).1)
  {
    ActiveOrQueueKeepsOrder(env, c, n, log);
    ActiveOrQueueStarts(env, c, n);
    var r := ActiveOrQueue(env, c, n).0;
    assert OneSessionEach(r) by {
      if n in c.pending {
        assert Elems(r.started) == Elems(c.started) + {n};
        assert multiset(r.started) == multiset(c.started) + multiset{n};
        assert n !in Elems(c.started);
        assert multiset(c.started)[n] == 0;
      }
    }
    assert log + [] == log;
    if n in c.pending && c.active.None? {
      TryFlushDelivers(env, c.(pending := c.pending - {n}, started := c.started + [n], active := Some(c.pending[n])),
        log);
    }
  }

  lemma OnEdgeTakenForKeepsOk(env: Env, c: Coord, e: EdgeId, n: NodeId, log: seq<Emitted>)
    requires CoordOk(c, log)
    ensures CoordOk(OnEdgeTakenFor(env, c, e, n).0, log + OnEdgeTakenFor(env, c, e, n).1)
  {
    assert log + [] == log;
    if n in c.paths {
      var c1 := c.(paths := c.paths[n := RemoveFromAll(c.paths[n], e)]);
      assert forall i :: 0 <= i < |log| ==> WithinTurn(c, log[i]) ==> WithinTurn(c1, log[i]);
      assert c1.paths.Keys == c.paths.Keys;
      hide AllDelivered, Sorted;
      assert CoordOk(c1, log);
      ActiveOrQueueKeepsOk(env, c1, n, log);
    }
  }

  lemma {:induction false} OnEdgeTakenKeepsOk(env: Env, c: Coord, e: EdgeId, order: seq<NodeId>, log: seq<Emitted>)
    requires CoordOk(c, log)
    ensures CoordOk(OnEdgeTaken(env, c, e, order).0, log + OnEdgeTaken(env, c, e, order).1)
    decreases |order|
  {
    hide CoordOk, OnEdgeTakenFor;
    if order == [] {
      assert log + [] == log;
    } else {
      var (c1, evs) := OnEdgeTakenFor(env, c, e, order[0]);
      OnEdgeTakenForKeepsOk(env, c, e, order[0], log);
      OnEdgeTakenKeepsOk(env, c1, e, order[1..], log + evs);
      assert log + (evs + OnEdgeTaken(env, c1, e, order[1..]).1) == (log + evs) + OnEdgeTaken(env, c1, e, order[1..]).1;
    }
  }

  lemma RegisterKeepsOk(g: Graph, c: Coord, n: NodeId, log: seq<Emitted>)
    requires Wf(g) && CoordOk(c, log)
    ensures CoordOk(Register(g, c, n), log)
  {
    hide BuildPaths, Sorted, AllDelivered;
    var r := Register(g, c, n);
    RegisterKeepsTurns(c, r, log);
    hide Bounded, WellQueued, NoDup;
  }

  lemma RegisterKeepsTurns(c: Coord, r: Coord, log: seq<Emitted>)
    requires r == c.(registered := r.registered, paths := r.paths, pending := r.pending)
    ensures Bounded(c, log) ==> Bounded(r, log)
    ensures WellQueued(c) ==> WellQueued(r)
  {
    assert forall i :: 0 <= i < |log| ==> WithinTurn(c, log[i]) ==> WithinTurn(r, log[i]);
  }

  /** Every operation keeps sessions in turn, buffers delivered in order, and one session per
      response node. */
  lemma ApplyKeepsOk(g: Graph, c: Coord, op: Op, log: seq<Emitted>)
    requires Wf(g) && Valid(c, op) && CoordOk(c, log)
    ensures CoordOk(Apply(g, c, op).0, log + Apply(g, c, op).1)
  {
    hide CoordOk, TryFlush, InterceptChunk, OnEdgeTaken, Register;
    assert log + [] == log;
    match op
    case RegisterNode(n) => RegisterKeepsOk(g, c, n, log);
    case Flush(env) => TryFlushKeepsOk(env, c, log);
    case ChunkIn(env, sel, chunk) => InterceptChunkKeepsOk(env, c, sel, chunk, log);
    case EdgeIn(env, e, order) => OnEdgeTakenKeepsOk(env, c, e, order, log);
  }

  // ---------- runs ----------

  /** A run of the coordinator: states and the operations between them, with the log. */
  ghost predicate IsCoordRun(g: Graph, trace: seq<Coord>, logs: seq<seq<Emitted>>, ops: seq<Op>)
    requires Wf(g)
  {
    && |trace| == |logs| == |ops| + 1 && trace[0] == INITIAL && logs[0] == []
    && forall i :: 0 <= i < |ops| ==>
         Valid(trace[i], ops[i]) &&
         trace[i + 1] == Apply(g, trace[i], ops[i]).0 && logs[i + 1] == logs[i] + Apply(g, trace[i], ops[i]).1
  }

  /** Over any run: sessions take turns in the order of their starts, none waits while none is
      active, events are ordered by session and segment, every buffer is delivered once and in
      order, and no response node has two sessions. */
  lemma {:induction false} CoordRunIsOk(g: Graph, trace: seq<Coord>, logs: seq<seq<Emitted>>, ops: seq<Op>, i: nat)
    requires Wf(g) && IsCoordRun(g, trace, logs, ops) && i < |trace|
    ensures CoordOk(trace[i], logs[i])
  {
    hide CoordOk, Apply, Valid;
    if i == 0 {
      InitialIsOk();
    } else {
      CoordRunIsOk(g, trace, logs, ops, i - 1);
      ApplyKeepsOk(g, trace[i - 1], ops[i - 1], logs[i - 1]);
    }
  }

  // ---------- drained streams ----------

  lemma {:induction false} FlushKeepsDrained(env: Env, c: Coord, sel: Selector, chunks: seq<BufferedChunk>)
    requires DrainedOf(c.streams, sel, chunks)
    ensures DrainedOf(TryFlush(env, c).0.streams, sel, chunks)
    decreases |c.waiting|
  {
    hide DrainedOf;
    if c.active.Some? {
      var c1 := RunSegments(env, c).0;
      RunKeepsDrained(env, c, sel, chunks);
      if IsComplete(c1.active.value) && c.waiting != [] {
        FlushKeepsDrained(env, c1.(ended := c.ended + 1, active := Some(c.waiting[0]), waiting := c.waiting[1..]),
          sel, chunks);
      }
    }
  }

  lemma {:induction false} EdgeKeepsDrained(env: Env, c: Coord, e: EdgeId, order: seq<NodeId>, sel: Selector,
      chunks: seq<BufferedChunk>)
    requires DrainedOf(c.streams, sel, chunks)
    ensures DrainedOf(OnEdgeTaken(env, c, e, order).0.streams, sel, chunks)
    decreases |order|
  {
    hide DrainedOf, TryFlush;
    if order != [] {
      var n := order[0];
      if n in c.paths && n in c.pending {
        FlushKeepsDrained(env, c.(paths := c.paths[n := RemoveFromAll(c.paths[n], e)], pending := c.pending - {n},
                                  started := c.started + [n], active := Some(c.pending[n])), sel, chunks);
      }
      EdgeKeepsDrained(env, OnEdgeTakenFor(env, c, e, n).0, e, order[1..], sel, chunks);
    }
  }

  lemma ApplyKeepsDrained(g: Graph, c: Coord, op: Op, sel: Selector, chunks: seq<BufferedChunk>)
    requires Wf(g) && Valid(c, op) && DrainedOf(c.streams, sel, chunks)
    ensures DrainedOf(Apply(g, c, op).0.streams, sel, chunks)
  {
    match op
    case RegisterNode(_) =>
    case Flush(env) => FlushKeepsDrained(env, c, sel, chunks);
    case ChunkIn(env, other, chunk) =>
      DrainedIsForever(c.streams, sel, other, chunk);
      var st := Append(c.streams, other, chunk);
      FlushKeepsDrained(env, c.(streams := if chunk.isFinal then Close(st, other) else st), sel, chunks);
    case EdgeIn(env, e, order) => EdgeKeepsDrained(env, c, e, order, sel, chunks);
  }

  lemma {:induction false} DrainedStays(g: Graph, trace: seq<Coord>, logs: seq<seq<Emitted>>, ops: seq<Op>, i: nat,
      j: nat, sel: Selector, chunks: seq<BufferedChunk>)
    requires Wf(g) && IsCoordRun(g, trace, logs, ops) && i <= j < |trace| && DrainedOf(trace[i].streams, sel, chunks)
    ensures DrainedOf(trace[j].streams, sel, chunks)
    decreases j
  {
    hide DrainedOf, Apply;
    if i < j {
      DrainedStays(g, trace, logs, ops, i, j - 1, sel, chunks);
      ApplyKeepsDrained(g, trace[j - 1], ops[j - 1], sel, chunks);
    }
  }

  /** Once a closed stream has been read to its end, its whole buffer has been delivered, once and
      in order, and that is all that is ever delivered of it. */
  lemma DrainedIsDelivered(g: Graph, trace: seq<Coord>, logs: seq<seq<Emitted>>, ops: seq<Op>, i: nat, j: nat,
      sel: Selector)
    requires Wf(g) && IsCoordRun(g, trace, logs, ops) && i <= j < |trace| && Drained(trace[i].streams, sel)
    ensures Drained(trace[j].streams, sel) && Delivered(logs[j], sel) == Texts(Buffer(trace[i].streams, sel))
  {
    hide Apply, Valid, WellQueued, Sorted, Bounded, OneSessionEach;
    var chunks := Buffer(trace[i].streams, sel);
    DrainedStays(g, trace, logs, ops, i, j, sel, chunks);
    CoordRunIsOk(g, trace, logs, ops, j);
    assert DeliveredPrefix(trace[j].streams, logs[j], sel);
    assert chunks[..|chunks|] == chunks;
  }
}
