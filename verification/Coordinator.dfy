/** The response stream coordinator (coordinator.py, session.py): sessions of response nodes are
    queued, one is active, and its template is streamed from buffers and from the pool. */
module Coordinator {
  import opened Templates
  import opened VariablePool
  import opened Graphs
  import opened Paths

  /** A buffered stream chunk and the node that sent it. */
  datatype BufferedChunk = BufferedChunk(node: NodeId, text: string, isFinal: bool)

  /** `_stream_buffers`, `_stream_positions` and `_closed_streams`. */
  datatype Streams = Streams(buffers: map<Selector, seq<BufferedChunk>>, positions: map<Selector, nat>,
      closed: set<Selector>)

  datatype Session = Session(node: NodeId, template: seq<Segment>, index: nat)

  /** A chunk event sent on, with the session (by order of start) and the template segment that
      it belongs to, and whether it came out of a buffer. */
  datatype Emitted = Emitted(session: nat, segment: nat, buffered: bool, node: NodeId, selector: Selector,
      text: string, isFinal: bool)

  /** `pending` are the sessions not started yet (`_response_sessions`). The history variables
      `started`, the response nodes in the order their sessions started, and `ended`, how many
      of those sessions are over, are not part of the source. */
  datatype Coord = Coord(
    active: Option<Session>,
    waiting: seq<Session>,
    pending: map<NodeId, Session>,
    registered: set<NodeId>,
    paths: map<NodeId, seq<seq<EdgeId>>>,
    streams: Streams,
    started: seq<NodeId>,
    ended: nat)

  /** What the coordinator reads elsewhere: the node table, which nodes are SKIPPED, the pool. */
  datatype Env = Env(nodes: set<NodeId>, skipped: set<NodeId>, pool: Pool)

  // ---------- buffers ----------

  function Position(st: Streams, sel: Selector): nat { if sel in st.positions then st.positions[sel] else 0 }

  function Buffer(st: Streams, sel: Selector): seq<BufferedChunk> { if sel in st.buffers then st.buffers[sel] else [] }

  /** What repeated `_pop_stream_chunk` would return. */
  function Unread(st: Streams, sel: Selector): seq<BufferedChunk> {
    if Position(st, sel) < |Buffer(st, sel)| then Buffer(st, sel)[Position(st, sel)..] else []
  }

  function ReadAll(st: Streams, sel: Selector): Streams {
    if Unread(st, sel) == [] then st else st.(positions := st.positions[sel := |Buffer(st, sel)|])
  }

  /** `_append_stream_chunk`. */
  function Append(st: Streams, sel: Selector, chunk: BufferedChunk): Streams
    requires sel !in st.closed
  {
    if sel in st.buffers then st.(buffers := st.buffers[sel := st.buffers[sel] + [chunk]])
    else st.(buffers := st.buffers[sel := [chunk]], positions := st.positions[sel := 0])
  }

  function Close(st: Streams, sel: Selector): Streams { st.(closed := st.closed + {sel}) }

  // ---------- segments ----------

  function Prefix(sel: Selector): string { if sel == [] then "" else sel[0] }

  function TextEvent(c: Coord, text: string): Emitted
    requires c.active.Some?
  {
    var s := c.active.value;
    Emitted(c.ended, s.index, false, s.node, [s.node, "answer"], text, s.index + 1 == |s.template|)
  }

  /** The node that a variable is attributed to: its source, or the response node when the
      selector does not start with a node id. */
  function Attributed(env: Env, s: Session, sel: Selector): NodeId {
    if Prefix(sel) in env.nodes then Prefix(sel) else s.node
  }

  /** Buffered chunks as they are sent on. */
  function BufferedEvents(env: Env, s: Session, k: nat, sel: Selector, chunks: seq<BufferedChunk>): seq<Emitted>
    decreases |chunks|
  {
    if chunks == [] then []
    else
      [Emitted(k, s.index, true, if Prefix(sel) in env.nodes then chunks[0].node else s.node, sel, chunks[0].text,
        chunks[0].isFinal)]
        + BufferedEvents(env, s, k, sel, chunks[1..])
  }

  /** `_process_variable_segment`: what is unread, then, on an open stream, the pooled value. */
  function VariableEvents(env: Env, c: Coord, sel: Selector): seq<Emitted>
    requires c.active.Some?
  {
    var s := c.active.value;
    var value := Get(env.pool, sel);
    BufferedEvents(env, s, c.ended, sel, Unread(c.streams, sel)) +
    if sel !in c.streams.closed && value.Some?
    then [Emitted(c.ended, s.index, false, Attributed(env, s, sel), sel, value.value.markdown,
      s.index + 1 == |s.template|)]
    else []
  }

  /** Whether that completes the segment. */
  predicate VariableCompletes(env: Env, st: Streams, sel: Selector) {
    sel in st.closed || Get(env.pool, sel).Some?
  }

  predicate SourceSkipped(env: Env, sel: Selector) {
    Prefix(sel) in env.nodes && Prefix(sel) in env.skipped
  }

  function Advance(c: Coord): Coord
    requires c.active.Some?
  {
    c.(active := Some(c.active.value.(index := c.active.value.index + 1)))
  }

  /** The segment loop of `try_flush`. */
  function RunSegments(env: Env, c: Coord): (r: (Coord, seq<Emitted>))
    requires c.active.Some?
    ensures r.0.active.Some? && r.0.active.value == c.active.value.(index := r.0.active.value.index)
    ensures r.0.active.value.index >= c.active.value.index
    ensures r.0 == c.(active := r.0.active, streams := r.0.streams)
    decreases |c.active.value.template| - c.active.value.index
  {
    var s := c.active.value;
    if s.index >= |s.template| then (c, [])
    else
      match s.template[s.index]
      case Text(text) =>
        var (r, rest) := RunSegments(env, Advance(c));
        (r, [TextEvent(c, text)] + rest)
      case Variable(sel) =>
        if SourceSkipped(env, sel) then RunSegments(env, Advance(c))
        else
          var evs := VariableEvents(env, c, sel);
          var c1 := c.(streams := ReadAll(c.streams, sel));
          if VariableCompletes(env, c.streams, sel) then
            var (r, rest) := RunSegments(env, Advance(c1));
            (r, evs + rest)
          else (c1, evs)
  }

  predicate IsComplete(s: Session) { s.index >= |s.template| }

  /** `try_flush` and `end_session` call each other once per waiting session. */
  function TryFlush(env: Env, c: Coord): (Coord, seq<Emitted>)
    decreases |c.waiting|, 1
  {
    if c.active.None? then (c, [])
    else
      var (c1, evs) := RunSegments(env, c);
      if IsComplete(c1.active.value) then
        var (r, rest) := EndSession(env, c1);
        (r, evs + rest)
      else (c1, evs)
  }

  function EndSession(env: Env, c: Coord): (Coord, seq<Emitted>)
    decreases |c.waiting|, 0
  {
    var c1 := c.(active := None, ended := c.ended + 1);
    if c.waiting == [] then (c1, [])
    else TryFlush(env, c1.(active := Some(c.waiting[0]), waiting := c.waiting[1..]))
  }

  // ---------- starting sessions ----------

  /** `_active_or_queue_session`. */
  function ActiveOrQueue(env: Env, c: Coord, n: NodeId): (Coord, seq<Emitted>) {
    if n !in c.pending then (c, [])
    else
      var s := c.pending[n];
      var c1 := c.(pending := c.pending - {n}, started := c.started + [n]);
      if c.active.None? then TryFlush(env, c1.(active := Some(s)))
      else (c1.(waiting := c.waiting + [s]), [])
  }

  function RemoveFromAll(ps: seq<seq<EdgeId>>, e: EdgeId): (r: seq<seq<EdgeId>>)
    ensures |r| == |ps| && forall i :: 0 <= i < |ps| ==> r[i] == RemoveEdge(ps[i], e)
    decreases |ps|
  {
    if ps == [] then [] else [RemoveEdge(ps[0], e)] + RemoveFromAll(ps[1..], e)
  }

  /** One response node in the loop of `on_edge_taken`. */
  function OnEdgeTakenFor(env: Env, c: Coord, e: EdgeId, n: NodeId): (Coord, seq<Emitted>) {
    if n !in c.paths then (c, [])
    else
      var ps := RemoveFromAll(c.paths[n], e);
      var c1 := c.(paths := c.paths[n := ps]);
      if [] in ps then ActiveOrQueue(env, c1, n) else (c1, [])
  }

  /** `on_edge_taken`; `order` lists the registered response nodes as the set iterates. */
  function OnEdgeTaken(env: Env, c: Coord, e: EdgeId, order: seq<NodeId>): (Coord, seq<Emitted>)
    decreases |order|
  {
    if order == [] then (c, [])
    else
      var (c1, evs) := OnEdgeTakenFor(env, c, e, order[0]);
      var (r, rest) := OnEdgeTaken(env, c1, e, order[1..]);
      (r, evs + rest)
  }

  /** `register`, for a node that is not registered yet. */
  function Register(g: Graph, c: Coord, n: NodeId): Coord
    requires Wf(g)
  {
    if n in c.registered then c
    else c.(registered := c.registered + {n},
            paths := c.paths[n := BuildPaths(g, n)],
            pending := c.pending[n := Session(n, Template(g, n), 0)])
  }

  /** `intercept_event` for a chunk of an open stream, and for a success event. */
  function InterceptChunk(env: Env, c: Coord, sel: Selector, chunk: BufferedChunk): (Coord, seq<Emitted>)
    requires sel !in c.streams.closed
  {
    var st := Append(c.streams, sel, chunk);
    TryFlush(env, c.(streams := if chunk.isFinal then Close(st, sel) else st))
  }
}
