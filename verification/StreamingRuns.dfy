/** Streaming over whole runs of the coordinator: sessions are followed from their start to their
    end, through every flush, chunk and taken edge. */
module StreamingRuns {
  import opened Templates
  import opened VariablePool
  import opened Graphs
  import opened Paths
  import opened Coordinator
  import opened Sessions
  import opened CoordinatorRuns
  import opened Rendering
  import opened Streaming

  ghost predicate TemplateOf(g: Graph, s: Session) { s.template == Template(g, s.node) }

  /** Sessions carry the template of their node; those not begun are at its start. */
  ghost predicate Templated(g: Graph, c: Coord) {
    && (c.active.Some? ==> TemplateOf(g, c.active.value))
    && (forall i :: 0 <= i < |c.waiting| ==> TemplateOf(g, c.waiting[i]) && c.waiting[i].index == 0)
    && (forall n :: n in c.pending ==> c.pending[n].node == n && TemplateOf(g, c.pending[n]) && c.pending[n].index == 0)
  }

  /** Session `k` of the run, in the order of starts: its template, what the template's variables
      mean, and the selectors that get a chunk before the session is over. */
  datatype Focus = Focus(k: nat, template: seq<Segment>, meaning: Meaning, streamed: set<Selector>)

  /** The sessions start in the order of `starts`; `f` is about one of them. */
  ghost predicate IsSession(g: Graph, starts: seq<NodeId>, f: Focus) {
    f.k < |starts| && f.template == Template(g, starts[f.k])
  }

  /** An event lies within the template of its session, and a chunk that it delivers is one of the
      variable there. */
  ghost predicate Owned(g: Graph, starts: seq<NodeId>, ev: Emitted) {
    && ev.session < |starts| && ev.segment < |Template(g, starts[ev.session])|
    && (ev.buffered ==> Template(g, starts[ev.session])[ev.segment] == Variable(ev.selector))
  }

  /** ... and while the focus is not over, only streamed selectors have chunks. */
  ghost predicate AllOwned(g: Graph, starts: seq<NodeId>, f: Focus, log: seq<Emitted>) {
    forall i :: 0 <= i < |log| ==>
      Owned(g, starts, log[i]) && (log[i].buffered && log[i].session <= f.k ==> log[i].selector in f.streamed)
  }

  /** Where session `k` is: over, active, or still to come. */
  ghost predicate Track(c: Coord, log: seq<Emitted>, f: Focus) {
    if c.ended > f.k then Exact(log, f.k, f.template, f.meaning, |f.template|)
    else if c.ended == f.k && c.active.Some? then c.active.value.template == f.template && OnTrack(c, log, f.meaning)
    else true
  }

  /** What every coordinator run keeps. */
  ghost predicate Orderly(g: Graph, c: Coord, log: seq<Emitted>, starts: seq<NodeId>) {
    && WellQueued(c) && Templated(g, c) && c.started <= starts
    && Sorted(log) && Bounded(c, log) && AllDelivered(c.streams, log)
  }

  ghost predicate Followed(g: Graph, c: Coord, log: seq<Emitted>, starts: seq<NodeId>, f: Focus) {
    && Orderly(g, c, log, starts) && IsSession(g, starts, f) && Track(c, log, f)
    && AllOwned(g, starts, f, log) && (c.ended <= f.k ==> c.streams.buffers.Keys <= f.streamed)
  }

  ghost predicate FitsFocus(env: Env, st: Streams, f: Focus) { Fits(env, st, f.meaning, f.template) }

  // ---------- one round of segments ----------

  lemma RunKeepsFits(env: Env, c: Coord, f: Focus)
    requires c.active.Some? && FitsFocus(env, c.streams, f)
    ensures FitsFocus(env, RunSegments(env, c).0.streams, f)
  {
    hide FitsFocus;
    RunKeepsBuffers(env, c);
    SameBuffersFit(env, c.streams, RunSegments(env, c).0.streams, f);
  }

  lemma SameBuffersFit(env: Env, st: Streams, r: Streams, f: Focus)
    requires r.buffers == st.buffers && r.closed == st.closed && FitsFocus(env, st, f)
    ensures FitsFocus(env, r, f)
  {
    forall i | 0 <= i < |f.template| && f.template[i].Variable?
      ensures FitsAt(env, r, f.meaning, f.template[i].selector)
    {
      assert FitsAt(env, st, f.meaning, f.template[i].selector);
    }
  }

  /** A session changes positions only. */
  lemma {:induction false} RunKeepsBuffers(env: Env, c: Coord)
    requires c.active.Some?
    ensures var r := RunSegments(env, c).0.streams; r.buffers == c.streams.buffers && r.closed == c.streams.closed
    decreases |c.active.value.template| - c.active.value.index
  {
    var s := c.active.value;
    if s.index < |s.template| {
      match s.template[s.index]
      case Text(_) => RunKeepsBuffers(env, Advance(c));
      case Variable(sel) =>
        if SourceSkipped(env, sel) {
          RunKeepsBuffers(env, Advance(c));
        } else if VariableCompletes(env, c.streams, sel) {
          RunKeepsBuffers(env, Advance(c.(streams := ReadAll(c.streams, sel))));
        }
    }
  }

  lemma RunKeepsOrderly(g: Graph, env: Env, c: Coord, log: seq<Emitted>, starts: seq<NodeId>)
    requires c.active.Some? && Orderly(g, c, log, starts)
    ensures var (r, evs) := RunSegments(env, c); Orderly(g, r, log + evs, starts)
    ensures forall i :: 0 <= i < |RunSegments(env, c).1| ==> RunSegments(env, c).1[i].session == c.ended
  {
    hide Sorted, Bounded, AllDelivered, RunSegments, TemplateOf, WellQueued;
    RunSegmentsKeepsOrder(env, c, log);
    RunSegmentsDelivers(env, c, log);
    SameQueue(c, RunSegments(env, c).0);
    SameTemplate(g, c.active.value, RunSegments(env, c).0.active.value);
  }

  lemma SameTemplate(g: Graph, s: Session, r: Session)
    requires TemplateOf(g, s) && r == s.(index := r.index)
    ensures TemplateOf(g, r)
  {
  }

  lemma RunOwns(g: Graph, env: Env, c: Coord, log: seq<Emitted>, starts: seq<NodeId>, f: Focus)
    requires c.active.Some? && Orderly(g, c, log, starts) && AllOwned(g, starts, f, log)
    requires c.ended <= f.k ==> c.streams.buffers.Keys <= f.streamed
    ensures AllOwned(g, starts, f, log + RunSegments(env, c).1)
  {
    hide Sorted, Bounded, AllDelivered;
    var evs := RunSegments(env, c).1;
    RunKeepsOrderly(g, env, c, log, starts);
    RunSendsSegments(env, c);
    assert starts[c.ended] == c.active.value.node;
    hide RunSegments, Orderly;
    forall i | 0 <= i < |evs|
      ensures Owned(g, starts, evs[i]) && (evs[i].buffered && evs[i].session <= f.k ==> evs[i].selector in f.streamed)
    {
      assert FromSegment(env, c.active.value, c.streams, evs[i]);
    }
  }

  /** One round of segments, whosever turn it is. */
  lemma RunFollows(g: Graph, env: Env, c: Coord, log: seq<Emitted>, starts: seq<NodeId>, f: Focus)
    requires c.active.Some? && Followed(g, c, log, starts, f)
    requires c.ended == f.k ==> FitsFocus(env, c.streams, f)
    ensures var (r, evs) := RunSegments(env, c); Followed(g, r, log + evs, starts, f)
  {
    hide OnTrack, Orderly, AllOwned, Fits, Exact, IsSession;
    var (r, evs) := RunSegments(env, c);
    RunKeepsOrderly(g, env, c, log, starts);
    RunKeepsBuffers(env, c);
    RunOwns(g, env, c, log, starts, f);
    if c.ended == f.k {
      RunStaysOnTrack(env, c, f.meaning, log);
    } else if c.ended > f.k {
      LaterKeepsExact(log, evs, f.k, f.template, f.meaning, |f.template|);
    }
  }

  /** Ending a complete session, and beginning the next. */
  lemma NextFollows(g: Graph, c: Coord, log: seq<Emitted>, starts: seq<NodeId>, f: Focus, r: Coord)
    requires c.active.Some? && IsComplete(c.active.value) && Followed(g, c, log, starts, f)
    requires r == c.(ended := c.ended + 1, active := if c.waiting == [] then None else Some(c.waiting[0]),
                     waiting := if c.waiting == [] then [] else c.waiting[1..])
    ensures Followed(g, r, log, starts, f)
  {
    NextIsOrderly(g, c, log, starts, r);
    hide Orderly, Sorted, Bounded, AllDelivered, UnderWay, AllOwned, Fulfilled;
    if c.ended == f.k {
      assert Exact(log, f.k, f.template, f.meaning, |f.template|);
    } else if c.waiting != [] && c.ended + 1 == f.k {
      NextIsNamed(g, c, log, starts, f);
      BeginsOnTrack(g, c, r, log, starts, f);
    }
  }

  lemma NextIsNamed(g: Graph, c: Coord, log: seq<Emitted>, starts: seq<NodeId>, f: Focus)
    requires Orderly(g, c, log, starts) && IsSession(g, starts, f)
    requires c.active.Some? && c.waiting != [] && c.ended + 1 == f.k
    ensures c.waiting[0].template == f.template && c.waiting[0].index == 0
  {
    assert starts[f.k] == c.waiting[0].node;
  }

  lemma NextIsOrderly(g: Graph, c: Coord, log: seq<Emitted>, starts: seq<NodeId>, r: Coord)
    requires c.active.Some? && Orderly(g, c, log, starts)
    requires r == c.(ended := c.ended + 1, active := if c.waiting == [] then None else Some(c.waiting[0]),
                     waiting := if c.waiting == [] then [] else c.waiting[1..])
    ensures Orderly(g, r, log, starts)
  {
    hide Sorted, AllDelivered, Bounded;
    Onward(c, r, log);
  }

  /** Nothing was sent for a session that begins. */
  lemma BeginsOnTrack(g: Graph, c: Coord, r: Coord, log: seq<Emitted>, starts: seq<NodeId>, f: Focus)
    requires Orderly(g, c, log, starts) && Orderly(g, r, log, starts) && r.active.Some? && r.ended == f.k
    requires r.active.value.template == f.template && r.active.value.index == 0
    requires c.ended < f.k || c.active.None?
    requires c.ended <= f.k
    ensures Track(r, log, f)
  {
    hide Sorted, AllDelivered, WellQueued, Templated;
    forall e | 0 <= e < |log| ensures log[e].session != f.k { assert WithinTurn(c, log[e]); }
    hide Bounded;
    assert UnderWay(log, f.k, f.template, 0);
  }

  // ---------- flushes ----------

  lemma {:induction false} EndedGrows(env: Env, c: Coord)
    ensures TryFlush(env, c).0.ended >= c.ended
    decreases |c.waiting|
  {
    if c.active.Some? {
      var c1 := RunSegments(env, c).0;
      if IsComplete(c1.active.value) && c.waiting != [] {
        EndedGrows(env, c1.(ended := c.ended + 1, active := Some(c.waiting[0]), waiting := c.waiting[1..]));
      }
    }
  }

  /** A flush keeps the focus on track if streams and pool fit while it is the focus's turn. */
  lemma {:induction false} FlushFollows(g: Graph, env: Env, c: Coord, log: seq<Emitted>, starts: seq<NodeId>, f: Focus)
    requires Followed(g, c, log, starts, f)
    requires c.ended <= f.k <= TryFlush(env, c).0.ended ==> FitsFocus(env, c.streams, f)
    ensures var (r, evs) := TryFlush(env, c); Followed(g, r, log + evs, starts, f) && r.ended >= c.ended
    ensures FitsFocus(env, c.streams, f) ==> FitsFocus(env, TryFlush(env, c).0.streams, f)
    decreases |c.waiting|
  {
    hide Followed, FitsFocus, RunSegments;
    EndedGrows(env, c);
    if c.active.None? {
      assert log + [] == log;
    } else {
      var (c1, evs) := RunSegments(env, c);
      RunFollows(g, env, c, log, starts, f);
      if FitsFocus(env, c.streams, f) { RunKeepsFits(env, c, f); }
      if IsComplete(c1.active.value) {
        var c2 := c1.(ended := c.ended + 1, active := if c.waiting == [] then None else Some(c.waiting[0]),
                      waiting := if c.waiting == [] then [] else c.waiting[1..]);
        NextFollows(g, c1, log + evs, starts, f, c2);
        if c.waiting == [] {
          assert evs + [] == evs;
        } else {
          assert EndSession(env, c1) == TryFlush(env, c2);
          FlushFollows(g, env, c2, log + evs, starts, f);
          assert log + (evs + TryFlush(env, c2).1) == (log + evs) + TryFlush(env, c2).1;
        }
      }
    }
  }

  // ---------- operations ----------

  /** A change that leaves the turn alone. */
  lemma SameTurnFollows(g: Graph, c: Coord, r: Coord, log: seq<Emitted>, starts: seq<NodeId>, f: Focus)
    requires Followed(g, c, log, starts, f) && Orderly(g, r, log, starts) && r.ended == c.ended && r.active == c.active
    requires r.ended <= f.k ==> r.streams.buffers.Keys <= f.streamed
    ensures Followed(g, r, log, starts, f)
  {
    hide AllOwned, IsSession, Sorted, Bounded, AllDelivered, WellQueued, Templated, Exact, UnderWay;
  }

  lemma AppendFollows(g: Graph, c: Coord, sel: Selector, chunk: BufferedChunk, log: seq<Emitted>, starts: seq<NodeId>,
      f: Focus)
    requires Followed(g, c, log, starts, f) && sel !in c.streams.closed && (c.ended <= f.k ==> sel in f.streamed)
    ensures var st := Append(c.streams, sel, chunk);
      Followed(g, c.(streams := if chunk.isFinal then Close(st, sel) else st), log, starts, f)
  {
    var st := Append(c.streams, sel, chunk);
    AppendKeepsDelivered(c.streams, sel, chunk, log);
    AppendBuffers(c.streams, sel, chunk);
    hide Append, Close, AllOwned, IsSession, Sorted, AllDelivered, TemplateOf, Track;
    var r := c.(streams := if chunk.isFinal then Close(st, sel) else st);
    Onward(c, r, log);
    hide Bounded;
    SameTurnFollows(g, c, r, log, starts, f);
  }

  lemma AppendBuffers(st: Streams, sel: Selector, chunk: BufferedChunk)
    requires sel !in st.closed
    ensures Append(st, sel, chunk).buffers.Keys == st.buffers.Keys + {sel}
    ensures forall o :: Close(Append(st, sel, chunk), o).buffers == Append(st, sel, chunk).buffers
  {
  }

  /** Starting a pending session. */
  lemma StartFollows(g: Graph, env: Env, c: Coord, n: NodeId, log: seq<Emitted>, starts: seq<NodeId>, f: Focus)
    requires Followed(g, c, log, starts, f) && ActiveOrQueue(env, c, n).0.started <= starts
    requires c.ended <= f.k <= ActiveOrQueue(env, c, n).0.ended ==> FitsFocus(env, c.streams, f)
    ensures var (r, evs) := ActiveOrQueue(env, c, n); Followed(g, r, log + evs, starts, f) && r.ended >= c.ended
    ensures FitsFocus(env, c.streams, f) ==> FitsFocus(env, ActiveOrQueue(env, c, n).0.streams, f)
  {
    hide FitsFocus, TryFlush, Followed;
    ActiveOrQueueStarts(env, c, n);
    assert log + [] == log;
    if n in c.pending {
      var c1 := c.(pending := c.pending - {n}, started := c.started + [n]);
      if c.active.None? {
        var c2 := c1.(active := Some(c.pending[n]));
        ActivateFollows(g, c, c2, n, log, starts, f);
        FlushFollows(g, env, c2, log, starts, f);
      } else {
        QueueFollows(g, c, c1.(waiting := c.waiting + [c.pending[n]]), n, log, starts, f);
      }
    }
  }

  lemma ActivateFollows(g: Graph, c: Coord, r: Coord, n: NodeId, log: seq<Emitted>, starts: seq<NodeId>, f: Focus)
    requires Followed(g, c, log, starts, f) && n in c.pending && c.active.None? && c.started + [n] <= starts
    requires r == c.(pending := c.pending - {n}, started := c.started + [n], active := Some(c.pending[n]))
    ensures Followed(g, r, log, starts, f)
  {
    hide Sorted, AllDelivered, Bounded, AllOwned, OnTrack, Exact;
    assert starts[c.ended] == n;
    Onward(c, r, log);
    if c.ended == f.k { BeginsOnTrack(g, c, r, log, starts, f); }
  }

  lemma QueueFollows(g: Graph, c: Coord, r: Coord, n: NodeId, log: seq<Emitted>, starts: seq<NodeId>, f: Focus)
    requires Followed(g, c, log, starts, f) && n in c.pending && c.active.Some? && c.started + [n] <= starts
    requires r == c.(pending := c.pending - {n}, started := c.started + [n], waiting := c.waiting + [c.pending[n]])
    ensures Followed(g, r, log, starts, f)
  {
    hide Sorted, AllDelivered, Bounded, AllOwned, IsSession, Track;
    Onward(c, r, log);
    SameTurnFollows(g, c, r, log, starts, f);
  }

  lemma PathsFollow(g: Graph, c: Coord, r: Coord, log: seq<Emitted>, starts: seq<NodeId>, f: Focus)
    requires Followed(g, c, log, starts, f) && r == c.(paths := r.paths)
    ensures Followed(g, r, log, starts, f)
  {
    hide Sorted, AllDelivered, Bounded, AllOwned, IsSession, Track, TemplateOf;
    Onward(c, r, log);
    SameTurnFollows(g, c, r, log, starts, f);
  }

  lemma EdgeForFollows(g: Graph, env: Env, c: Coord, e: EdgeId, n: NodeId, log: seq<Emitted>, starts: seq<NodeId>,
      f: Focus)
    requires Followed(g, c, log, starts, f) && OnEdgeTakenFor(env, c, e, n).0.started <= starts
    requires c.ended <= f.k <= OnEdgeTakenFor(env, c, e, n).0.ended ==> FitsFocus(env, c.streams, f)
    ensures var (r, evs) := OnEdgeTakenFor(env, c, e, n); Followed(g, r, log + evs, starts, f) && r.ended >= c.ended
    ensures FitsFocus(env, c.streams, f) ==> FitsFocus(env, OnEdgeTakenFor(env, c, e, n).0.streams, f)
  {
    assert log + [] == log;
    if n in c.paths {
      var c1 := c.(paths := c.paths[n := RemoveFromAll(c.paths[n], e)]);
      PathsFollow(g, c, c1, log, starts, f);
      hide Followed, FitsFocus, ActiveOrQueue;
      if [] in c1.paths[n] { StartFollows(g, env, c1, n, log, starts, f); }
    }
  }

  lemma {:induction false} EdgeStartsGrow(env: Env, c: Coord, e: EdgeId, order: seq<NodeId>)
    ensures c.started <= OnEdgeTaken(env, c, e, order).0.started && OnEdgeTaken(env, c, e, order).0.ended >= c.ended
    decreases |order|
  {
    hide TryFlush;
    if order != [] {
      var n := order[0];
      if n in c.paths {
        var c1 := c.(paths := c.paths[n := RemoveFromAll(c.paths[n], e)]);
        ActiveOrQueueStarts(env, c1, n);
        if n in c.pending {
          EndedGrows(env, c1.(pending := c1.pending - {n}, started := c1.started + [n], active := Some(c1.pending[n])));
        }
      }
      EdgeStartsGrow(env, OnEdgeTakenFor(env, c, e, n).0, e, order[1..]);
    }
  }

  lemma {:induction false} EdgeFollows(g: Graph, env: Env, c: Coord, e: EdgeId, order: seq<NodeId>, log: seq<Emitted>,
      starts: seq<NodeId>, f: Focus)
    requires Followed(g, c, log, starts, f) && OnEdgeTaken(env, c, e, order).0.started <= starts
    requires c.ended <= f.k <= OnEdgeTaken(env, c, e, order).0.ended ==> FitsFocus(env, c.streams, f)
    ensures var (r, evs) := OnEdgeTaken(env, c, e, order); Followed(g, r, log + evs, starts, f)
    decreases |order|
  {
    hide Followed, FitsFocus, OnEdgeTakenFor;
    if order == [] {
      assert log + [] == log;
    } else {
      var (c1, evs) := OnEdgeTakenFor(env, c, e, order[0]);
      EdgeStartsGrow(env, c1, e, order[1..]);
      EdgeForFollows(g, env, c, e, order[0], log, starts, f);
      EdgeFollows(g, env, c1, e, order[1..], log + evs, starts, f);
      assert log + (evs + OnEdgeTaken(env, c1, e, order[1..]).1) == (log + evs) + OnEdgeTaken(env, c1, e, order[1..]).1;
    }
  }

  /** The surroundings that an operation sees, and the streams once its chunk has arrived. */
  ghost predicate FitsOp(c: Coord, op: Op, f: Focus) {
    match op
    case RegisterNode(_) => true
    case Flush(env) => FitsFocus(env, c.streams, f)
    case ChunkIn(env, sel, chunk) =>
      sel !in c.streams.closed ==>
        var st := Append(c.streams, sel, chunk);
        FitsFocus(env, if chunk.isFinal then Close(st, sel) else st, f)
    case EdgeIn(env, _, _) => FitsFocus(env, c.streams, f)
  }

  lemma ApplyFollows(g: Graph, c: Coord, op: Op, log: seq<Emitted>, starts: seq<NodeId>, f: Focus)
    requires Wf(g) && Valid(c, op) && Followed(g, c, log, starts, f) && Apply(g, c, op).0.started <= starts
    requires c.ended <= f.k <= Apply(g, c, op).0.ended ==> FitsOp(c, op, f)
    requires op.ChunkIn? && c.ended <= f.k ==> op.selector in f.streamed
    ensures Followed(g, Apply(g, c, op).0, log + Apply(g, c, op).1, starts, f)
  {
    hide Followed, FitsFocus, TryFlush, OnEdgeTaken;
    assert log + [] == log;
    match op
    case RegisterNode(n) => RegisterFollows(g, c, n, log, starts, f);
    case Flush(env) => FlushFollows(g, env, c, log, starts, f);
    case ChunkIn(env, sel, chunk) =>
      var st := Append(c.streams, sel, chunk);
      AppendFollows(g, c, sel, chunk, log, starts, f);
      FlushFollows(g, env, c.(streams := if chunk.isFinal then Close(st, sel) else st), log, starts, f);
    case EdgeIn(env, e, order) => EdgeFollows(g, env, c, e, order, log, starts, f);
  }

  lemma RegisterFollows(g: Graph, c: Coord, n: NodeId, log: seq<Emitted>, starts: seq<NodeId>, f: Focus)
    requires Wf(g) && Followed(g, c, log, starts, f)
    ensures Followed(g, Register(g, c, n), log, starts, f)
  {
    hide Sorted, AllDelivered, Bounded, AllOwned, IsSession, Track, WellQueued, Templated;
    var r := Register(g, c, n);
    RegisterKeepsTurn(g, c, n);
    hide Register;
    Onward(c, r, log);
    SameTurnFollows(g, c, r, log, starts, f);
  }

  lemma RegisterKeepsTurn(g: Graph, c: Coord, n: NodeId)
    requires Wf(g) && WellQueued(c) && Templated(g, c)
    ensures var r := Register(g, c, n);
      && WellQueued(r) && Templated(g, r)
      && r == c.(registered := r.registered, paths := r.paths, pending := r.pending)
  {
    hide Wf, BuildPaths;
    var r := Register(g, c, n);
    assert forall m :: m in r.pending ==> m == n || (m in c.pending && r.pending[m] == c.pending[m]);
  }

  // ---------- runs ----------

  /** While session `k` may send, streams and pool fit its variables. */
  ghost predicate FitsDuring(g: Graph, trace: seq<Coord>, ops: seq<Op>, f: Focus)
    requires |trace| == |ops| + 1
  {
    forall i :: 0 <= i < |ops| && trace[i].ended <= f.k <= trace[i + 1].ended ==> FitsOp(trace[i], ops[i], f)
  }

  /** The selectors that get a chunk before session `k` is over. */
  ghost function StreamedUntil(trace: seq<Coord>, ops: seq<Op>, k: nat): set<Selector>
    requires |trace| == |ops| + 1
  {
    set i | 0 <= i < |ops| && ops[i].ChunkIn? && trace[i].ended <= k :: ops[i].selector
  }

  lemma {:induction false} StartsGrow(g: Graph, trace: seq<Coord>, logs: seq<seq<Emitted>>, ops: seq<Op>, i: nat,
      j: nat)
    requires Wf(g) && IsCoordRun(g, trace, logs, ops) && i <= j < |trace|
    ensures trace[i].started <= trace[j].started
    decreases j
  {
    if i < j {
      StartsGrow(g, trace, logs, ops, i, j - 1);
      hide TryFlush, OnEdgeTaken, IsCoordRun, Apply;
      StartsGrowOnce(g, trace[j - 1], ops[j - 1]);
      assert trace[j] == Apply(g, trace[j - 1], ops[j - 1]).0 by { OneStep(g, trace, logs, ops, j - 1); }
    }
  }

  lemma OneStep(g: Graph, trace: seq<Coord>, logs: seq<seq<Emitted>>, ops: seq<Op>, i: nat)
    requires Wf(g) && IsCoordRun(g, trace, logs, ops) && i < |ops|
    ensures Valid(trace[i], ops[i]) && trace[i + 1] == Apply(g, trace[i], ops[i]).0
    ensures logs[i + 1] == logs[i] + Apply(g, trace[i], ops[i]).1
  {
    hide Apply, Valid;
  }

  lemma StartsGrowOnce(g: Graph, c: Coord, op: Op)
    requires Wf(g) && Valid(c, op)
    ensures c.started <= Apply(g, c, op).0.started && c.ended <= Apply(g, c, op).0.ended
  {
    hide TryFlush, OnEdgeTaken;
    match op
    case RegisterNode(n) =>
    case Flush(env) =>
      TryFlushFrame(env, c);
      EndedGrows(env, c);
    case ChunkIn(env, sel, chunk) =>
      var st := Append(c.streams, sel, chunk);
      TryFlushFrame(env, c.(streams := if chunk.isFinal then Close(st, sel) else st));
      EndedGrows(env, c.(streams := if chunk.isFinal then Close(st, sel) else st));
    case EdgeIn(env, e, order) => EdgeStartsGrow(env, c, e, order);
  }

  lemma InitialFollows(g: Graph, starts: seq<NodeId>, f: Focus)
    requires IsSession(g, starts, f)
    ensures Followed(g, INITIAL, [], starts, f)
  {
    InitialIsOk();
  }

  lemma {:induction false} RunFollowsFocus(g: Graph, trace: seq<Coord>, logs: seq<seq<Emitted>>, ops: seq<Op>,
      f: Focus, i: nat)
    requires Wf(g) && IsCoordRun(g, trace, logs, ops) && i < |trace|
    requires IsSession(g, trace[|trace| - 1].started, f) && FitsDuring(g, trace, ops, f)
    requires StreamedUntil(trace, ops, f.k) <= f.streamed
    ensures Followed(g, trace[i], logs[i], trace[|trace| - 1].started, f)
  {
    hide Followed, IsSession, Apply, FitsOp, Valid;
    var starts := trace[|trace| - 1].started;
    if i == 0 {
      InitialFollows(g, starts, f);
    } else {
      RunFollowsFocus(g, trace, logs, ops, f, i - 1);
      StartsGrow(g, trace, logs, ops, i, |trace| - 1);
      ApplyFollows(g, trace[i - 1], ops[i - 1], logs[i - 1], starts, f);
    }
  }

  // ---------- what a session has sent when it is over ----------

  lemma OverIsExact(g: Graph, c: Coord, log: seq<Emitted>, starts: seq<NodeId>, f: Focus)
    requires Followed(g, c, log, starts, f) && c.ended > f.k
    ensures Exact(log, f.k, f.template, f.meaning, |f.template|)
    ensures SentBy(log, f.k) == SegmentsText(log, f.k, |f.template|)
  {
    hide Exact, Bounded, AllDelivered, WellQueued, Templated;
    forall i | 0 <= i < |log| && log[i].session == f.k ensures log[i].segment < |f.template| {
      assert Owned(g, starts, log[i]);
    }
    SentByIsSegments(log, f.k, |f.template|);
  }

  /** Once session `k` of a run is over, each of its text segments has sent its text, and each of
      its variables what it means less what was delivered of its stream before. */
  lemma SessionIsExact(g: Graph, trace: seq<Coord>, logs: seq<seq<Emitted>>, ops: seq<Op>, f: Focus, i: nat)
    requires Wf(g) && IsCoordRun(g, trace, logs, ops) && i < |trace| && trace[i].ended > f.k
    requires IsSession(g, trace[|trace| - 1].started, f) && FitsDuring(g, trace, ops, f)
    ensures Exact(logs[i], f.k, f.template, f.meaning, |f.template|)
    ensures SentBy(logs[i], f.k) == SegmentsText(logs[i], f.k, |f.template|)
  {
    hide Apply, Valid, FitsOp, IsSession, Followed, Exact;
    var h := f.(streamed := StreamedUntil(trace, ops, f.k));
    SameFocus(g, trace, ops, f, h);
    RunFollowsFocus(g, trace, logs, ops, h, i);
    OverIsExact(g, trace[i], logs[i], trace[|trace| - 1].started, h);
  }

  lemma SameFocus(g: Graph, trace: seq<Coord>, ops: seq<Op>, f: Focus, h: Focus)
    requires |trace| == |ops| + 1 && h == f.(streamed := h.streamed)
    ensures IsSession(g, trace[|trace| - 1].started, f) ==> IsSession(g, trace[|trace| - 1].started, h)
    ensures FitsDuring(g, trace, ops, f) ==> FitsDuring(g, trace, ops, h)
  {
    hide Fits, Append, Close;
  }

  /** Streaming against batch rendering. Once session `k` of a run is over, its chunks add up to
      what `convert_template` makes of the template, from any pool in which the variables resolve
      to their meanings and no literal text names a value, exactly when nothing of its variables
      had been delivered before their turn. */
  lemma StreamingRefinesBatch(g: Graph, trace: seq<Coord>, logs: seq<seq<Emitted>>, ops: seq<Op>, f: Focus, i: nat,
      pool: Pool)
    requires Wf(g) && IsCoordRun(g, trace, logs, ops) && i < |trace| && trace[i].ended > f.k
    requires IsSession(g, trace[|trace| - 1].started, f) && FitsDuring(g, trace, ops, f)
    requires PlainTexts(pool, f.template) && AllResolve(pool, f.meaning, f.template)
    ensures SentBy(logs[i], f.k) == Render(pool, f.template) <==> NothingBefore(logs[i], f.k, f.template, |f.template|)
  {
    hide Apply, Valid, FitsDuring, IsSession, PlainTexts, AllResolve, Exact, NothingBefore;
    SessionIsExact(g, trace, logs, ops, f, i);
    RenderedIffNothingBefore(logs[i], f.k, f.template, f.meaning);
    RenderToIsRender(pool, f.meaning, f.template, |f.template|);
    assert f.template[..|f.template|] == f.template;
  }

  /** The templates share no variable that is streamed. */
  ghost predicate DisjointVars(a: seq<Segment>, b: seq<Segment>, streamed: set<Selector>) {
    forall i, j :: 0 <= i < |a| && 0 <= j < |b| && a[i].Variable? && b[j].Variable? && a[i].selector in streamed ==>
      a[i].selector != b[j].selector
  }

  /** No session before `k` references a streamed variable of its template, and the template itself
      does so once. */
  ghost predicate FirstHere(g: Graph, starts: seq<NodeId>, f: Focus) {
    && IsSession(g, starts, f)
    && (forall j :: 0 <= j < f.k ==> DisjointVars(Template(g, starts[j]), f.template, f.streamed))
    && (forall i, j :: 0 <= i < j < |f.template| && f.template[i].Variable? && f.template[j] == f.template[i] ==>
          f.template[i].selector !in f.streamed)
  }

  lemma FirstHereIsNothingBefore(g: Graph, starts: seq<NodeId>, f: Focus, log: seq<Emitted>)
    requires FirstHere(g, starts, f) && AllOwned(g, starts, f, log)
    ensures NothingBefore(log, f.k, f.template, |f.template|)
  {
    var t := f.template;
    forall j | 0 <= j < |t| && t[j].Variable? ensures EarlierText(log, t[j].selector, f.k, j) == "" {
      forall i | 0 <= i < |log| && log[i].buffered && log[i].selector == t[j].selector
        ensures !Earlier(log[i], f.k, j)
      {
        assert Owned(g, starts, log[i]);
      }
      NoneEarlier(log, t[j].selector, f.k, j);
    }
  }

  /** That is so, before any chunk has arrived, if the session is the first to reference what is
      streamed. */
  lemma FirstReferenceIsWhole(g: Graph, trace: seq<Coord>, logs: seq<seq<Emitted>>, ops: seq<Op>, f: Focus, i: nat)
    requires Wf(g) && IsCoordRun(g, trace, logs, ops) && i < |trace|
    requires FirstHere(g, trace[|trace| - 1].started, f) && FitsDuring(g, trace, ops, f)
    requires f.streamed == StreamedUntil(trace, ops, f.k)
    ensures NothingBefore(logs[i], f.k, f.template, |f.template|)
  {
    hide Apply, Valid, FitsDuring, NothingBefore, AllOwned, Track, Orderly;
    RunFollowsFocus(g, trace, logs, ops, f, i);
    FirstHereIsNothingBefore(g, trace[|trace| - 1].started, f, logs[i]);
  }
}
