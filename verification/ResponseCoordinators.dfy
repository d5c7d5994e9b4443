/** The response stream coordinator as an object (coordinator.py): its loops and the mutual
    recursion of `try_flush` and `end_session`, against the functions of `Coordinator`. */
module ResponseCoordinators {
  import opened Templates
  import opened VariablePool
  import opened Graphs
  import opened Paths
  import opened Coordinator

  lemma {:induction false} BufferedSnoc(env: Env, s: Session, k: nat, sel: Selector, chunks: seq<BufferedChunk>,
      chunk: BufferedChunk)
    ensures BufferedEvents(env, s, k, sel, chunks + [chunk]) ==
      BufferedEvents(env, s, k, sel, chunks) + BufferedEvents(env, s, k, sel, [chunk])
    decreases |chunks|
  {
    if chunks == [] {
      assert chunks + [chunk] == [chunk];
    } else {
      assert (chunks + [chunk])[1..] == chunks[1..] + [chunk];
      BufferedSnoc(env, s, k, sel, chunks[1..], chunk);
    }
  }

  /** The streams after `k` chunks were popped. */
  ghost function ReadTo(st: Streams, sel: Selector, k: nat): Streams {
    if k == 0 then st else st.(positions := st.positions[sel := Position(st, sel) + k])
  }

  lemma ReadSome(st: Streams, sel: Selector, k: nat)
    requires k <= |Unread(st, sel)|
    ensures Unread(ReadTo(st, sel, k), sel) == Unread(st, sel)[k..]
    ensures k > 0 ==> var m := ReadTo(st, sel, k - 1);
      ReadTo(st, sel, k) == m.(positions := m.positions[sel := Position(m, sel) + 1])
    ensures k == |Unread(st, sel)| ==> ReadTo(st, sel, k) == ReadAll(st, sel)
  {
  }

  // One round of the loops, with what was emitted before it.

  lemma TextRound(env: Env, c: Coord, before: seq<Emitted>, text: string)
    requires c.active.Some? && c.active.value.index < |c.active.value.template|
    requires c.active.value.template[c.active.value.index] == Text(text)
    ensures RunSegments(env, c).0 == RunSegments(env, Advance(c)).0
    ensures before + RunSegments(env, c).1 == (before + [TextEvent(c, text)]) + RunSegments(env, Advance(c)).1
  {
  }

  lemma VariableRound(env: Env, c: Coord, before: seq<Emitted>, sel: Selector)
    requires c.active.Some? && c.active.value.index < |c.active.value.template|
    requires c.active.value.template[c.active.value.index] == Variable(sel)
    ensures SourceSkipped(env, sel) ==> RunSegments(env, c) == RunSegments(env, Advance(c))
    ensures var c1, evs := c.(streams := ReadAll(c.streams, sel)), VariableEvents(env, c, sel);
      !SourceSkipped(env, sel) ==>
        if VariableCompletes(env, c.streams, sel) then
          RunSegments(env, c).0 == RunSegments(env, Advance(c1)).0 &&
          before + RunSegments(env, c).1 == (before + evs) + RunSegments(env, Advance(c1)).1
        else RunSegments(env, c) == (c1, evs)
  {
  }

  lemma EdgeRound(env: Env, c: Coord, before: seq<Emitted>, e: EdgeId, order: seq<NodeId>, i: nat)
    requires i < |order|
    ensures var (c1, evs) := OnEdgeTakenFor(env, c, e, order[i]);
      && Coordinator.OnEdgeTaken(env, c, e, order[i..]).0 == Coordinator.OnEdgeTaken(env, c1, e, order[i + 1..]).0
      && before + Coordinator.OnEdgeTaken(env, c, e, order[i..]).1 ==
        (before + evs) + Coordinator.OnEdgeTaken(env, c1, e, order[i + 1..]).1
  {
    hide OnEdgeTakenFor;
    assert order[i..][1..] == order[i + 1..] && order[i..][0] == order[i];
  }

  class ResponseStreamCoordinator {
    var active: Option<Session>
    var waiting: seq<Session>
    var pending: map<NodeId, Session>
    var responses: seq<NodeId>      // the set of registered nodes, as it iterates
    var paths: map<NodeId, seq<seq<EdgeId>>>
    var buffers: map<Selector, seq<BufferedChunk>>
    var positions: map<Selector, nat>
    var closed: set<Selector>
    var started: seq<NodeId>        // history: the sessions in the order of their starts,
    var ended: nat                  // and how many of them are over

    ghost function View(): Coord
      reads this
    {
      Coord(active, waiting, pending, Elems(responses), paths, Streams(buffers, positions, closed), started, ended)
    }

    constructor ()
      ensures View() == Coord(None, [], map[], {}, map[], Streams(map[], map[], {}), [], 0) && responses == []
    {
      active, waiting, pending, responses, paths := None, [], map[], [], map[];
      buffers, positions, closed := map[], map[], {};
      started, ended := [], 0;
      new;
      assert Elems(responses) == {};
    }

    // ---------- buffers ----------

    predicate HasUnread(sel: Selector): (unread: bool)
      reads this
      ensures unread == (Unread(View().streams, sel) != [])
    {
      sel in buffers && (if sel in positions then positions[sel] else 0) < |buffers[sel]|
    }

    /** `_pop_stream_chunk`. */
    method PopStreamChunk(sel: Selector) returns (chunk: Option<BufferedChunk>)
      modifies this`positions
      ensures var st := old(View()).streams;
        if Unread(st, sel) == [] then chunk == None && View() == old(View())
        else
          chunk == Some(Unread(st, sel)[0]) &&
          View() == old(View()).(streams := st.(positions := st.positions[sel := Position(st, sel) + 1]))
    {
      if sel !in buffers { return None; }
      var position := if sel in positions then positions[sel] else 0;
      if position >= |buffers[sel]| { return None; }
      chunk := Some(buffers[sel][position]);
      positions := positions[sel := position + 1];
    }

    /** `_append_stream_chunk` raises for a closed stream. */
    method AppendStreamChunk(sel: Selector, chunk: BufferedChunk) returns (ok: bool)
      modifies this`buffers, this`positions
      ensures ok == (sel !in old(closed))
      ensures View() == if sel in old(closed) then old(View())
        else old(View()).(streams := Append(old(View()).streams, sel, chunk))
    {
      if sel in closed { return false; }
      if sel !in buffers {
        buffers := buffers[sel := []];
        positions := positions[sel := 0];
      }
      buffers := buffers[sel := buffers[sel] + [chunk]];
      ok := true;
      assert [] + [chunk] == [chunk];
      assert View().streams == Append(old(View()).streams, sel, chunk);
    }

    // ---------- segments ----------

    /** Pops all unread chunks, one after the other. */
    method PopAll(env: Env, sel: Selector) returns (events: seq<Emitted>)
      requires active.Some?
      modifies this`positions
      ensures events == BufferedEvents(env, active.value, ended, sel, Unread(old(View()).streams, sel))
      ensures View() == old(View()).(streams := ReadAll(old(View()).streams, sel))
    {
      var s := active.value;
      ghost var st := View().streams;
      ghost var unread := Unread(st, sel);
      ghost var k := 0;
      events := [];
      ReadSome(st, sel, 0);
      assert unread[..0] == [] && unread[0..] == unread;
      hide BufferedEvents, Unread, ReadTo, ReadAll, Position, Buffer;
      while HasUnread(sel)
        invariant k <= |unread| && events == BufferedEvents(env, s, ended, sel, unread[..k])
        invariant View() == old(View()).(streams := ReadTo(st, sel, k))
        invariant Unread(ReadTo(st, sel, k), sel) == unread[k..]
        decreases |unread| - k
      {
        ReadSome(st, sel, k + 1);
        var chunk := PopStreamChunk(sel);
        BufferedSnoc(env, s, ended, sel, unread[..k], chunk.value);
        assert unread[..k + 1] == unread[..k] + [chunk.value];
        events := events + BufferedEvents(env, s, ended, sel, [chunk.value]);
        k := k + 1;
      }
      assert unread[..|unread|] == unread;
      ReadSome(st, sel, k);
    }

    /** `_process_variable_segment`: the unread chunks, then on an open stream the value of the
        pool. */
    method ProcessVariableSegment(env: Env, sel: Selector) returns (events: seq<Emitted>, complete: bool)
      requires active.Some?
      modifies this`positions
      ensures events == VariableEvents(env, old(View()), sel)
      ensures complete == VariableCompletes(env, old(View()).streams, sel)
      ensures View() == old(View()).(streams := ReadAll(old(View()).streams, sel))
    {
      var s := active.value;
      events := PopAll(env, sel);
      complete := sel in closed;
      if !complete {
        var value := Get(env.pool, sel);
        if value.Some? {
          events := events + [Emitted(ended, s.index, false, Attributed(env, s, sel), sel, value.value.markdown,
            s.index + 1 == |s.template|)];
          complete := true;
        }
      }
    }

    method ProcessTextSegment(text: string) returns (events: seq<Emitted>)
      requires active.Some?
      ensures events == [TextEvent(View(), text)]
    {
      var s := active.value;
      events := [Emitted(ended, s.index, false, s.node, [s.node, "answer"], text, s.index + 1 == |s.template|)];
    }

    method AdvanceIndex()
      requires active.Some?
      modifies this`active
      ensures View() == Advance(old(View()))
    {
      active := Some(active.value.(index := active.value.index + 1));
    }

    /** The segment loop of `try_flush`, to the end of the template or to a variable that is not
        there yet. */
    method FlushSegments(env: Env) returns (events: seq<Emitted>)
      requires active.Some?
      modifies this`active, this`positions
      ensures (View(), events) == RunSegments(env, old(View()))
    {
      hide RunSegments;
      events := [];
      var waits := false;
      ghost var goal := RunSegments(env, View());
      while !waits && active.value.index < |active.value.template|
        invariant active.Some?
        invariant waits ==> (View(), events) == goal
        invariant !waits ==> RunSegments(env, View()).0 == goal.0 && events + RunSegments(env, View()).1 == goal.1
        decreases !waits, |active.value.template| - active.value.index
      {
        ghost var c := View();
        match active.value.template[active.value.index]
        case Text(text) =>
          TextRound(env, c, events, text);
          var more := ProcessTextSegment(text);
          events := events + more;
          AdvanceIndex();
        case Variable(sel) =>
          VariableRound(env, c, events, sel);
          if SourceSkipped(env, sel) {
            AdvanceIndex();
          } else {
            var more, complete := ProcessVariableSegment(env, sel);
            events := events + more;
            if complete { AdvanceIndex(); } else { waits := true; }
          }
      }
      if !waits { NothingLeft(env, View(), events); }
    }

    lemma NothingLeft(env: Env, c: Coord, events: seq<Emitted>)
      requires c.active.Some? && c.active.value.index >= |c.active.value.template|
      ensures RunSegments(env, c) == (c, []) && events + [] == events
    {
    }

    // ---------- sessions ----------

    method TryFlush(env: Env) returns (events: seq<Emitted>)
      modifies this
      ensures (View(), events) == Coordinator.TryFlush(env, old(View())) && responses == old(responses)
      decreases |waiting|, 1
    {
      if active.None? { return []; }
      events := FlushSegments(env);
      if IsComplete(active.value) {
        var more := EndSession(env, active.value.node);
        events := events + more;
      }
    }

    /** Asked to end a session that is not the active one, it does nothing. */
    method EndSession(env: Env, n: NodeId) returns (events: seq<Emitted>)
      modifies this
      ensures responses == old(responses)
      ensures if old(active).Some? && old(active).value.node == n
              then (View(), events) == Coordinator.EndSession(env, old(View()))
              else View() == old(View()) && events == []
      decreases |waiting|, 0
    {
      events := [];
      if active.None? || active.value.node != n { return; }
      active := None;
      ended := ended + 1;
      if waiting != [] {
        active := Some(waiting[0]);
        waiting := waiting[1..];
        events := TryFlush(env);
      }
    }

    method ActiveOrQueueSession(env: Env, n: NodeId) returns (events: seq<Emitted>)
      modifies this
      ensures (View(), events) == ActiveOrQueue(env, old(View()), n) && responses == old(responses)
    {
      events := [];
      if n !in pending { return; }
      var s := pending[n];
      pending := pending - {n};
      started := started + [n];
      if active.None? {
        active := Some(s);
        events := TryFlush(env);
      } else {
        waiting := waiting + [s];
      }
    }

    /** The inner loop of `on_edge_taken`: remove the edge from every path of one response node,
        and see whether a path is empty. */
    method RemoveFromPaths(ps: seq<seq<EdgeId>>, e: EdgeId) returns (r: seq<seq<EdgeId>>, reachable: bool)
      ensures r == RemoveFromAll(ps, e) && reachable == ([] in r)
    {
      hide RemoveFromAll, RemoveEdge;
      r, reachable := [], false;
      for i := 0 to |ps|
        invariant |r| == i && forall j :: 0 <= j < i ==> r[j] == RemoveEdge(ps[j], e)
        invariant reachable == ([] in r)
      {
        var path := RemoveEdge(ps[i], e);
        r := r + [path];
        if path == [] { reachable := true; }
      }
    }

    /** The body of its outer loop. */
    method UpdatePaths(env: Env, e: EdgeId, n: NodeId) returns (events: seq<Emitted>)
      modifies this
      ensures (View(), events) == OnEdgeTakenFor(env, old(View()), e, n) && responses == old(responses)
    {
      events := [];
      if n !in paths { return; }
      var ps, reachable := RemoveFromPaths(paths[n], e);
      paths := paths[n := ps];
      if reachable { events := ActiveOrQueueSession(env, n); }
    }

    method OnEdgeTaken(env: Env, e: EdgeId) returns (events: seq<Emitted>)
      modifies this
      ensures (View(), events) == Coordinator.OnEdgeTaken(env, old(View()), e, old(responses))
      ensures responses == old(responses)
    {
      events := [];
      var order := responses;
      ghost var goal := Coordinator.OnEdgeTaken(env, View(), e, order);
      assert order[0..] == order && events + goal.1 == goal.1;
      for i := 0 to |order|
        invariant responses == order
        invariant Coordinator.OnEdgeTaken(env, View(), e, order[i..]).0 == goal.0
        invariant events + Coordinator.OnEdgeTaken(env, View(), e, order[i..]).1 == goal.1
      {
        hide OnEdgeTakenFor, Coordinator.OnEdgeTaken;
        EdgeRound(env, View(), events, e, order, i);
        var more := UpdatePaths(env, e, order[i]);
        events := events + more;
      }
      NoNodeLeft(env, View(), e, order[|order|..], events);
    }

    lemma NoNodeLeft(env: Env, c: Coord, e: EdgeId, order: seq<NodeId>, events: seq<Emitted>)
      requires |order| == 0
      ensures Coordinator.OnEdgeTaken(env, c, e, order) == (c, []) && events + [] == events
    {
    }

    method Register(g: Graph, n: NodeId)
      requires Wf(g)
      modifies this
      ensures View() == Coordinator.Register(g, old(View()), n)
      ensures responses == if n in old(responses) then old(responses) else old(responses) + [n]
    {
      if n in responses {
        assert n in Elems(responses);
        return;
      }
      assert Elems(responses + [n]) == Elems(responses) + {n} && n !in Elems(responses);
      responses := responses + [n];
      paths := paths[n := BuildPaths(g, n)];
      pending := pending[n := Session(n, Template(g, n), 0)];
    }

    /** `intercept_event` for a chunk; false when the stream is closed. */
    method InterceptChunk(env: Env, sel: Selector, chunk: BufferedChunk) returns (ok: bool, events: seq<Emitted>)
      modifies this
      ensures ok == (sel !in old(closed)) && responses == old(responses)
      ensures if sel in old(closed) then View() == old(View()) && events == []
              else (View(), events) == Coordinator.InterceptChunk(env, old(View()), sel, chunk)
    {
      events := [];
      ok := AppendStreamChunk(sel, chunk);
      if !ok { return; }
      if chunk.isFinal { closed := closed + {sel}; }
      events := TryFlush(env);
    }
  }
}
