/** Every chunk that nodes send is kept, delivered at most once, and in order (coordinator.py). */
module ChunkLaws {
  import opened Templates
  import opened VariablePool
  import opened Graphs
  import opened Traversal
  import opened Scheduler
  import opened Runs
  import opened Coordinator
  import opened Sessions
  import opened CoordinatorRuns
  import opened Reachability
  import opened World
  import opened WorldRuns
  import opened WorldStreams
  import opened EngineStreaming
  import opened Promptness

  /** The chunks of the stream that the operation brings. */
  function Brought(op: Op, sel: Selector): seq<BufferedChunk> {
    if op.ChunkIn? && op.selector == sel then [op.chunk] else []
  }

  function BroughtBy(ops: seq<Op>, sel: Selector): seq<BufferedChunk>
    decreases |ops|
  {
    if ops == [] then [] else Brought(ops[0], sel) + BroughtBy(ops[1..], sel)
  }

  predicate HasFinal(chunks: seq<BufferedChunk>) { exists i :: 0 <= i < |chunks| && chunks[i].isFinal }

  lemma HasFinalConcat(a: seq<BufferedChunk>, b: seq<BufferedChunk>)
    ensures HasFinal(a + b) <==> HasFinal(a) || HasFinal(b)
  {
    if HasFinal(a) {
      var i :| 0 <= i < |a| && a[i].isFinal;
      assert (a + b)[i].isFinal;
    }
    if HasFinal(b) {
      var i :| 0 <= i < |b| && b[i].isFinal;
      assert (a + b)[|a| + i].isFinal;
    }
  }

  lemma ApplyBuffers(g: Graph, c: Coord, op: Op, sel: Selector)
    requires Wf(g) && Valid(c, op)
    ensures var st, r := c.streams, Apply(g, c, op).0.streams;
      && Buffer(r, sel) == Buffer(st, sel) + Brought(op, sel)
      && (sel in r.closed <==> sel in st.closed || HasFinal(Brought(op, sel)))
  {
    hide TryFlush, OnEdgeTaken;
    match op
    case RegisterNode(_) =>
    case Flush(env) => FlushKeepsBuffers(env, c);
    case EdgeIn(env, e, order) => EdgeKeepsBuffers(env, c, e, order);
    case ChunkIn(env, other, chunk) =>
      var st := Append(c.streams, other, chunk);
      FlushKeepsBuffers(env, c.(streams := if chunk.isFinal then Close(st, other) else st));
      assert HasFinal([chunk]) <==> chunk.isFinal by { assert chunk.isFinal ==> [chunk][0].isFinal; }
  }

  lemma {:induction false} RunOpsBuffers(g: Graph, c: Coord, log: seq<Emitted>, ops: seq<Op>, sel: Selector)
    requires Wf(g) && Feasible(g, c, ops)
    ensures var st, r := c.streams, RunOps(g, c, log, ops).0.streams;
      && Buffer(r, sel) == Buffer(st, sel) + BroughtBy(ops, sel)
      && (sel in r.closed <==> sel in st.closed || HasFinal(BroughtBy(ops, sel)))
    decreases |ops|
  {
    hide Apply, Valid, HasFinal, Buffer, Brought;
    if ops == [] {
      NoneFinal();
      assert Buffer(c.streams, sel) + [] == Buffer(c.streams, sel);
    } else {
      var (c1, evs) := Apply(g, c, ops[0]);
      ApplyBuffers(g, c, ops[0], sel);
      RunOpsBuffers(g, c1, log + evs, ops[1..], sel);
      HasFinalConcat(Brought(ops[0], sel), BroughtBy(ops[1..], sel));
      assert (Buffer(c.streams, sel) + Brought(ops[0], sel)) + BroughtBy(ops[1..], sel)
          == Buffer(c.streams, sel) + (Brought(ops[0], sel) + BroughtBy(ops[1..], sel));
    }
  }

  lemma NoneFinal()
    ensures !HasFinal([])
  {
  }

  lemma {:induction false} NothingBrought(ops: seq<Op>, sel: Selector)
    requires forall i :: 0 <= i < |ops| ==> !ops[i].ChunkIn?
    ensures BroughtBy(ops, sel) == []
    decreases |ops|
  {
    if ops != [] { NothingBrought(ops[1..], sel); }
  }

  // ---------- engine runs ----------

  /** The chunk that the step handles, if it is one of the stream. */
  function ChunkOf(w: World, m: Move, sel: Selector): seq<BufferedChunk> {
    if ChunkHandled(w, m) && w.e.events[0].selector == sel then
      [BufferedChunk(w.e.events[0].node, w.e.events[0].text, w.e.events[0].isFinal)]
    else []
  }

  /** The chunks of the stream that have been handled before state `i`, in order. */
  function Came(trace: seq<World>, moves: seq<Move>, i: nat, sel: Selector): seq<BufferedChunk>
    requires i <= |moves| <= |trace|
  {
    if i == 0 then [] else Came(trace, moves, i - 1, sel) + ChunkOf(trace[i - 1], moves[i - 1], sel)
  }

  lemma MoveBrings(g: Graph, w: World, m: Move, sel: Selector)
    requires Wf(g) && (m.step.Dispatch? ==> CanHandle(g, w))
    ensures BroughtBy(MoveOps(g, w, m), sel) == ChunkOf(w, m, sel)
  {
    hide Pending, PoolAfter, EnvOf, TakenOps, BroughtBy, Registrations;
    var ops := MoveOps(g, w, m);
    if ChunkHandled(w, m) {
      OneBrings(ops[0], sel);
      assert ops == [ops[0]];
    } else {
      if m.step.Dispatch? && !Midway(w.e.events[0]) { NoChunks(g, w, m); }
      NothingBrought(ops, sel);
    }
  }

  lemma OneBrings(op: Op, sel: Selector)
    ensures BroughtBy([op], sel) == Brought(op, sel)
  {
    assert [op][1..] == [];
  }

  lemma NoChunks(g: Graph, w: World, m: Move)
    requires Wf(g) && m.step.Dispatch? && CanHandle(g, w) && !Midway(w.e.events[0])
    ensures forall i :: 0 <= i < |MoveOps(g, w, m)| ==> !MoveOps(g, w, m)[i].ChunkIn?
  {
    hide Pending, PoolAfter, EnvOf, CompletedWith, AfterSkips, TakenList;
  }

  /** In every state of every engine run the buffer of a stream holds exactly the chunks that have
      come, in the order in which they came, and the stream is closed exactly when a final one is
      among them. */
  lemma {:induction false} BuffersHoldWhatCame(g: Graph, inactive: set<NodeId>, trace: seq<World>, moves: seq<Move>,
      i: nat, sel: Selector)
    requires EngineRun(g, inactive, trace, moves) && i < |trace|
    ensures |trace| == |moves| + 1
    ensures var st := trace[i].co.streams;
      Buffer(st, sel) == Came(trace, moves, i, sel) && (sel in st.closed <==> HasFinal(Came(trace, moves, i, sel)))
  {
    hide WorldNext, Fresh, WorldStarted, HasFinal, Buffer, MoveOps, ChunkOf;
    if i == 0 {
      var s, pool, order :|
        Fresh(g, inactive, s) && Elems(order) == ResponseNodes(g) && trace[0] == WorldStarted(g, s, pool, order);
      StartHoldsNothing(g, s, pool, order, sel);
      NoneFinal();
    } else {
      BuffersHoldWhatCame(g, inactive, trace, moves, i - 1, sel);
      var w, m := trace[i - 1], moves[i - 1];
      StepRunsOps(g, w, m, trace[i]);
      RunOpsBuffers(g, w.co, w.log, MoveOps(g, w, m), sel);
      MoveBrings(g, w, m, sel);
      HasFinalConcat(Came(trace, moves, i - 1, sel), ChunkOf(w, m, sel));
    }
  }

  lemma StartHoldsNothing(g: Graph, s: State, pool: Pool, order: seq<NodeId>, sel: Selector)
    requires Wf(g)
    ensures var st := WorldStarted(g, s, pool, order).co.streams; Buffer(st, sel) == [] && sel !in st.closed
  {
    hide RunOps, Feasible, Started;
    RegistrationsAreFeasible(g, INITIAL, order);
    RunOpsBuffers(g, INITIAL, [], Registrations(order), sel);
    NothingBrought(Registrations(order), sel);
    NoneFinal();
  }

  /** What sessions have sent on of a stream is a prefix of what has come, in order and without
      repetition; and it is all that has come when the active session is at a variable of the stream. */
  lemma SentOnIsWhatCame(g: Graph, inactive: set<NodeId>, trace: seq<World>, moves: seq<Move>, i: nat, sel: Selector)
    requires EngineRun(g, inactive, trace, moves) && i < |trace|
    ensures |trace| == |moves| + 1
    ensures Delivered(trace[i].log, sel) <= Texts(Came(trace, moves, i, sel))
    ensures var c := trace[i].co;
      c.active.Some? && c.active.value.index < |c.active.value.template|
      && c.active.value.template[c.active.value.index] == Variable(sel) ==>
        Delivered(trace[i].log, sel) == Texts(Came(trace, moves, i, sel))
  {
    hide Came, Delivered, Texts, WorldNext, Fresh, WorldStarted, WorldOk, HasFinal, Buffer;
    EngineRunIsOk(g, inactive, trace, moves, i, i);
    BuffersHoldWhatCame(g, inactive, trace, moves, i, sel);
    SessionsArePrompt(g, inactive, trace, moves, i);
    PrefixIsDelivered(g, inactive, trace[i], sel);
  }

  lemma PrefixIsDelivered(g: Graph, inactive: set<NodeId>, w: World, sel: Selector)
    requires Wf(g) && WorldOk(g, inactive, w)
    ensures Delivered(w.log, sel) <= Texts(Buffer(w.co.streams, sel))
    ensures Unread(w.co.streams, sel) == [] ==> Delivered(w.log, sel) == Texts(Buffer(w.co.streams, sel))
  {
    hide Inv, Reached, InOrder, WellQueued, Sorted, Bounded, OneSessionEach;
    var st := w.co.streams;
    assert DeliveredPrefix(st, w.log, sel);
    var chunks, k := Buffer(st, sel), Position(st, sel);
    assert chunks == chunks[..k] + chunks[k..];
    TextsConcat(chunks[..k], chunks[k..]);
    if Unread(st, sel) == [] { assert chunks[..k] == chunks; }
  }

  /** The handler of an event in mid-attempt raises exactly for a chunk of a stream of which a final
      chunk has been handled, and for an update whose selector has not two parts. */
  lemma RefusedExactly(g: Graph, inactive: set<NodeId>, trace: seq<World>, moves: seq<Move>, i: nat)
    requires EngineRun(g, inactive, trace, moves) && i < |moves| && (moves[i].step.Dispatch? || moves[i].step.Refuse?)
    ensures |trace| == |moves| + 1 && trace[i].e.events != []
    ensures var ev := trace[i].e.events[0];
      moves[i].step.Refuse? <==>
        (ev.Chunk? && HasFinal(Came(trace, moves, i, ev.selector))) || (ev.Updated? && |ev.selector| != 2)
  {
    hide Came, HasFinal, HandleEvent, OpsFor, RunOps, Feasible, Pending, PoolAfter, OutputsAfter, Fresh, WorldStarted,
      Resumed;
    assert WorldNext(g, trace[i], moves[i].step, moves[i].outputs, moves[i].order, trace[i + 1]);
    var ev := trace[i].e.events[0];
    if ev.Chunk? { BuffersHoldWhatCame(g, inactive, trace, moves, i, ev.selector); }
  }
}
