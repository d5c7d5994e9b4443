/** What every sequence of coordinator operations keeps: sessions are served one after the
    other, and each buffer is delivered once and in order. */
module Sessions {
  import opened Templates
  import opened VariablePool
  import opened Graphs
  import opened Paths
  import opened Coordinator

  // ---------- order of the emitted log ----------

  ghost predicate Before(x: Emitted, y: Emitted) {
    x.session < y.session || (x.session == y.session && x.segment <= y.segment)
  }

  /** Events are ordered by session start, then by segment. */
  ghost predicate Sorted(log: seq<Emitted>) {
    forall i, j :: 0 <= i < j < |log| ==> Before(log[i], log[j])
  }

  /** Events come from sessions that are over, or from the active one up to its index. */
  ghost predicate WithinTurn(c: Coord, ev: Emitted) {
    ev.session < c.ended || (c.active.Some? && ev.session == c.ended && ev.segment <= c.active.value.index)
  }

  ghost predicate Bounded(c: Coord, log: seq<Emitted>) {
    forall i :: 0 <= i < |log| ==> WithinTurn(c, log[i])
  }

  /** Sessions are served in the order in which they started, and none waits for nothing. */
  ghost predicate WellQueued(c: Coord) {
    && (c.active.None? ==> c.waiting == [])
    && |c.started| == c.ended + (if c.active.Some? then 1 else 0) + |c.waiting|
    && (c.active.Some? ==> c.started[c.ended] == c.active.value.node)
    && forall i :: 0 <= i < |c.waiting| ==> c.started[c.ended + 1 + i] == c.waiting[i].node
  }

  lemma SortedSnoc(c: Coord, log: seq<Emitted>, evs: seq<Emitted>)
    requires c.active.Some? && Sorted(log) && Bounded(c, log)
    requires forall i :: 0 <= i < |evs| ==> evs[i].session == c.ended && evs[i].segment == c.active.value.index
    ensures Sorted(log + evs) && Bounded(c, log + evs)
  {
    assert forall i :: 0 <= i < |log| ==> WithinTurn(c, log[i]);
    forall i | 0 <= i < |log + evs| ensures WithinTurn(c, (log + evs)[i]) {
    }
  }

  lemma {:induction false} BufferedEventsAre(env: Env, s: Session, k: nat, sel: Selector, chunks: seq<BufferedChunk>)
    ensures |BufferedEvents(env, s, k, sel, chunks)| == |chunks|
    ensures forall i :: 0 <= i < |chunks| ==>
      var ev := BufferedEvents(env, s, k, sel, chunks)[i];
      ev.session == k && ev.segment == s.index && ev.buffered && ev.selector == sel && ev.text == chunks[i].text
    decreases |chunks|
  {
    if chunks != [] { BufferedEventsAre(env, s, k, sel, chunks[1..]); }
  }

  /** What one segment sends extends the log in order. */
  lemma TextKeepsOrder(c: Coord, log: seq<Emitted>, text: string)
    requires c.active.Some? && Sorted(log) && Bounded(c, log)
    ensures Sorted(log + [TextEvent(c, text)]) && Bounded(Advance(c), log + [TextEvent(c, text)])
  {
    SortedSnoc(c, log, [TextEvent(c, text)]);
    Onward(c, Advance(c), log + [TextEvent(c, text)]);
  }

  lemma VariableKeepsOrder(env: Env, c: Coord, log: seq<Emitted>, sel: Selector)
    requires c.active.Some? && Sorted(log) && Bounded(c, log)
    ensures var log1, c1 := log + VariableEvents(env, c, sel), c.(streams := ReadAll(c.streams, sel));
      Sorted(log1) && Bounded(c1, log1) && Bounded(Advance(c1), log1)
    ensures forall i :: 0 <= i < |VariableEvents(env, c, sel)| ==> VariableEvents(env, c, sel)[i].session == c.ended
  {
    var c1 := c.(streams := ReadAll(c.streams, sel));
    var evs := VariableEvents(env, c, sel);
    VariableEventsAre(env, c, sel);
    hide VariableEvents;
    SortedSnoc(c, log, evs);
    Onward(c, c1, log + evs);
    Onward(c, Advance(c1), log + evs);
  }

  lemma VariableEventsAre(env: Env, c: Coord, sel: Selector)
    requires c.active.Some?
    ensures var evs := VariableEvents(env, c, sel);
      forall i :: 0 <= i < |evs| ==> evs[i].session == c.ended && evs[i].segment == c.active.value.index
  {
    BufferedEventsAre(env, c.active.value, c.ended, sel, Unread(c.streams, sel));
  }

  lemma {:induction false} RunSegmentsKeepsOrder(env: Env, c: Coord, log: seq<Emitted>)
    requires c.active.Some? && Sorted(log) && Bounded(c, log)
    ensures var (r, evs) := RunSegments(env, c); Sorted(log + evs) && Bounded(r, log + evs)
    ensures forall i :: 0 <= i < |RunSegments(env, c).1| ==> RunSegments(env, c).1[i].session == c.ended
    decreases |c.active.value.template| - c.active.value.index
  {
    hide Sorted, Bounded, VariableEvents, ReadAll;
    var s := c.active.value;
    if s.index >= |s.template| {
      assert log + [] == log;
    } else {
      match s.template[s.index]
      case Text(text) =>
        var evs := [TextEvent(c, text)];
        TextKeepsOrder(c, log, text);
        RunSegmentsKeepsOrder(env, Advance(c), log + evs);
        assert log + (evs + RunSegments(env, Advance(c)).1) == (log + evs) + RunSegments(env, Advance(c)).1;
      case Variable(sel) =>
        if SourceSkipped(env, sel) {
          Onward(c, Advance(c), log);
          RunSegmentsKeepsOrder(env, Advance(c), log);
        } else {
          var evs := VariableEvents(env, c, sel);
          var c1 := c.(streams := ReadAll(c.streams, sel));
          VariableKeepsOrder(env, c, log, sel);
          if VariableCompletes(env, c.streams, sel) {
            RunSegmentsKeepsOrder(env, Advance(c1), log + evs);
            assert log + (evs + RunSegments(env, Advance(c1)).1) == (log + evs) + RunSegments(env, Advance(c1)).1;
          }
        }
    }
  }

  /** The turn only moves on. */
  lemma Onward(c: Coord, r: Coord, log: seq<Emitted>)
    requires Bounded(c, log)
    requires r.ended > c.ended ||
      (r.ended == c.ended && (c.active.Some? ==> r.active.Some? && r.active.value.index >= c.active.value.index))
    ensures Bounded(r, log)
  {
    forall i | 0 <= i < |log| ensures WithinTurn(r, log[i]) { assert WithinTurn(c, log[i]); }
  }

  lemma SameQueue(c: Coord, r: Coord)
    requires WellQueued(c) && c.active.Some? && r.active.Some? && r == c.(active := r.active, streams := r.streams)
    requires r.active.value.node == c.active.value.node
    ensures WellQueued(r)
  {
  }

  lemma {:induction false} TryFlushKeepsOrder(env: Env, c: Coord, log: seq<Emitted>)
    requires Sorted(log) && Bounded(c, log) && WellQueued(c)
    ensures var (r, evs) := TryFlush(env, c);
      Sorted(log + evs) && Bounded(r, log + evs) && WellQueued(r) && r.started == c.started
    ensures TryFlush(env, c).0.ended >= c.ended
    decreases |c.waiting|, 1
  {
    hide Sorted, Bounded, WellQueued, RunSegments;
    if c.active.None? {
      assert log + [] == log;
    } else {
      var (c1, evs) := RunSegments(env, c);
      RunSegmentsKeepsOrder(env, c, log);
      SameQueue(c, c1);
      if IsComplete(c1.active.value) {
        EndSessionKeepsOrder(env, c1, log + evs);
        assert log + (evs + EndSession(env, c1).1) == (log + evs) + EndSession(env, c1).1;
      }
    }
  }

  lemma {:induction false} EndSessionKeepsOrder(env: Env, c: Coord, log: seq<Emitted>)
    requires Sorted(log) && Bounded(c, log) && WellQueued(c) && c.active.Some?
    ensures var (r, evs) := EndSession(env, c);
      Sorted(log + evs) && Bounded(r, log + evs) && WellQueued(r) && r.started == c.started
    ensures EndSession(env, c).0.ended > c.ended
    decreases |c.waiting|, 0
  {
    var c1 := c.(active := None, ended := c.ended + 1);
    Onward(c, c1, log);
    if c.waiting == [] {
      assert log + [] == log;
    } else {
      var c2 := c1.(active := Some(c.waiting[0]), waiting := c.waiting[1..]);
      Onward(c, c2, log);
      TryFlushKeepsOrder(env, c2, log);
    }
  }

  lemma ActiveOrQueueKeepsOrder(env: Env, c: Coord, n: NodeId, log: seq<Emitted>)
    requires Sorted(log) && Bounded(c, log) && WellQueued(c) && (n in c.pending ==> c.pending[n].node == n)
    ensures var (r, evs) := ActiveOrQueue(env, c, n); Sorted(log + evs) && Bounded(r, log + evs) && WellQueued(r)
  {
    assert log + [] == log;
    if n in c.pending {
      var s := c.pending[n];
      var c1 := c.(pending := c.pending - {n}, started := c.started + [n]);
      if c.active.None? {
        Onward(c, c1.(active := Some(s)), log);
        TryFlushKeepsOrder(env, c1.(active := Some(s)), log);
      } else {
        Onward(c, c1.(waiting := c.waiting + [s]), log);
      }
    }
  }

  // ---------- what an event says ----------

  /** An event belongs to its segment. Texts come from the response node as its answer. What a
      variable sends carries its selector; it names the response node when the selector does not
      start with a node id, and otherwise the sender of the chunk or, for a value of the pool,
      that node. Only the last segment's text or value is final. */
  ghost predicate FromSegment(env: Env, s: Session, st: Streams, ev: Emitted) {
    && ev.segment < |s.template|
    && (!ev.buffered ==> (ev.isFinal <==> ev.segment == |s.template| - 1))
    && match s.template[ev.segment]
       case Text(text) => !ev.buffered && ev.text == text && ev.node == s.node && ev.selector == [s.node, "answer"]
       case Variable(sel) =>
         && ev.selector == sel && !SourceSkipped(env, sel)
         && (Prefix(sel) !in env.nodes ==> ev.node == s.node)
         && (ev.buffered ==> exists chunk :: chunk in Buffer(st, sel) && SentOn(env, sel, chunk, ev))
         && (!ev.buffered ==>
               sel !in st.closed && Get(env.pool, sel).Some? && ev.text == Get(env.pool, sel).value.markdown
                              && (Prefix(sel) in env.nodes ==> ev.node == Prefix(sel)))
  }

  /** A buffered chunk goes out with its text, its flag, and its sender if that is a node. */
  predicate SentOn(env: Env, sel: Selector, chunk: BufferedChunk, ev: Emitted) {
    ev.text == chunk.text && ev.isFinal == chunk.isFinal && (Prefix(sel) in env.nodes ==> ev.node == chunk.node)
  }

  ghost predicate AllFromSegments(env: Env, s: Session, st: Streams, evs: seq<Emitted>) {
    forall i :: 0 <= i < |evs| ==> FromSegment(env, s, st, evs[i])
  }

  lemma {:induction false} BufferedFromSegment(env: Env, c: Coord, sel: Selector, chunks: seq<BufferedChunk>)
    requires c.active.Some? && c.active.value.index < |c.active.value.template|
    requires c.active.value.template[c.active.value.index] == Variable(sel) && !SourceSkipped(env, sel)
    requires forall j :: 0 <= j < |chunks| ==> chunks[j] in Buffer(c.streams, sel)
    ensures AllFromSegments(env, c.active.value, c.streams, BufferedEvents(env, c.active.value, c.ended, sel, chunks))
    decreases |chunks|
  {
    if chunks != [] {
      assert chunks[0] in Buffer(c.streams, sel);
      BufferedFromSegment(env, c, sel, chunks[1..]);
    }
  }

  lemma VariableFromSegment(env: Env, c: Coord, sel: Selector)
    requires c.active.Some? && c.active.value.index < |c.active.value.template|
    requires c.active.value.template[c.active.value.index] == Variable(sel) && !SourceSkipped(env, sel)
    ensures AllFromSegments(env, c.active.value, c.streams, VariableEvents(env, c, sel))
  {
    BufferedFromSegment(env, c, sel, Unread(c.streams, sel));
  }

  lemma SameSegments(env: Env, s: Session, s2: Session, st: Streams, st2: Streams, evs: seq<Emitted>)
    requires AllFromSegments(env, s2, st2, evs) && s2 == s.(index := s2.index) && st2 == st.(positions := st2.positions)
    ensures AllFromSegments(env, s, st, evs)
  {
    forall i | 0 <= i < |evs| ensures FromSegment(env, s, st, evs[i]) { assert FromSegment(env, s2, st2, evs[i]); }
  }

  /** Whatever a round of segments sends belongs to a segment of the active session. */
  lemma {:induction false} RunSendsSegments(env: Env, c: Coord)
    requires c.active.Some?
    ensures AllFromSegments(env, c.active.value, c.streams, RunSegments(env, c).1)
    decreases |c.active.value.template| - c.active.value.index
  {
    hide VariableEvents, ReadAll, FromSegment;
    var s := c.active.value;
    if s.index < |s.template| {
      match s.template[s.index]
      case Text(text) =>
        RunSendsSegments(env, Advance(c));
        SameSegments(env, s, Advance(c).active.value, c.streams, c.streams, RunSegments(env, Advance(c)).1);
        TextFromSegment(env, c, text);
      case Variable(sel) =>
        if SourceSkipped(env, sel) {
          RunSendsSegments(env, Advance(c));
          SameSegments(env, s, Advance(c).active.value, c.streams, c.streams, RunSegments(env, Advance(c)).1);
        } else {
          VariableFromSegment(env, c, sel);
          if VariableCompletes(env, c.streams, sel) {
            var c1 := Advance(c.(streams := ReadAll(c.streams, sel)));
            RunSendsSegments(env, c1);
            OnlyPositions(c.streams, sel);
            SameSegments(env, s, c1.active.value, c.streams, c1.streams, RunSegments(env, c1).1);
          }
        }
    }
  }

  lemma OnlyPositions(st: Streams, sel: Selector)
    ensures ReadAll(st, sel) == st.(positions := ReadAll(st, sel).positions)
  {
  }

  lemma TextFromSegment(env: Env, c: Coord, text: string)
    requires c.active.Some? && c.active.value.index < |c.active.value.template|
    requires c.active.value.template[c.active.value.index] == Text(text)
    ensures FromSegment(env, c.active.value, c.streams, TextEvent(c, text))
  {
  }

  // ---------- delivery of buffers ----------

  function Texts(chunks: seq<BufferedChunk>): seq<string>
    decreases |chunks|
  {
    if chunks == [] then [] else [chunks[0].text] + Texts(chunks[1..])
  }

  /** What the log delivered out of the buffer of one selector. */
  function Delivered(log: seq<Emitted>, sel: Selector): seq<string>
    decreases |log|
  {
    if log == [] then []
    else (if log[0].buffered && log[0].selector == sel then [log[0].text] else []) + Delivered(log[1..], sel)
  }

  lemma {:induction false} DeliveredConcat(a: seq<Emitted>, b: seq<Emitted>, sel: Selector)
    ensures Delivered(a + b, sel) == Delivered(a, sel) + Delivered(b, sel)
    decreases |a|
  {
    if a == [] {
      assert a + b == b;
    } else {
      assert (a + b)[1..] == a[1..] + b;
      DeliveredConcat(a[1..], b, sel);
    }
  }

  lemma {:induction false} TextsConcat(a: seq<BufferedChunk>, b: seq<BufferedChunk>)
    ensures Texts(a + b) == Texts(a) + Texts(b)
    decreases |a|
  {
    if a == [] {
      assert a + b == b;
    } else {
      assert (a + b)[1..] == a[1..] + b;
      TextsConcat(a[1..], b);
    }
  }

  /** Exactly the prefix of the buffer up to its position has been delivered, in order. */
  ghost predicate DeliveredPrefix(st: Streams, log: seq<Emitted>, sel: Selector) {
    Position(st, sel) <= |Buffer(st, sel)| && Delivered(log, sel) == Texts(Buffer(st, sel)[..Position(st, sel)])
  }

  ghost predicate AllDelivered(st: Streams, log: seq<Emitted>) {
    forall sel :: DeliveredPrefix(st, log, sel)
  }

  lemma {:induction false} BufferedEventsDeliver(env: Env, s: Session, k: nat, sel: Selector,
      chunks: seq<BufferedChunk>, other: Selector)
    ensures Delivered(BufferedEvents(env, s, k, sel, chunks), other) == if other == sel then Texts(chunks) else []
    decreases |chunks|
  {
    if chunks != [] { BufferedEventsDeliver(env, s, k, sel, chunks[1..], other); }
  }

  lemma VariableEventsDeliver(env: Env, c: Coord, sel: Selector, log: seq<Emitted>)
    requires c.active.Some? && AllDelivered(c.streams, log)
    ensures AllDelivered(ReadAll(c.streams, sel), log + VariableEvents(env, c, sel))
  {
    var st, r := c.streams, ReadAll(c.streams, sel);
    var evs := VariableEvents(env, c, sel);
    forall other ensures DeliveredPrefix(r, log + evs, other) {
      assert DeliveredPrefix(st, log, other);
      DeliveredConcat(log, evs, other);
      VariableEventsDeliverUnread(env, c, sel, other);
      if other == sel { ReadAllReads(st, sel); }
    }
  }

  lemma VariableEventsDeliverUnread(env: Env, c: Coord, sel: Selector, other: Selector)
    requires c.active.Some?
    ensures Delivered(VariableEvents(env, c, sel), other) == if other == sel then Texts(Unread(c.streams, sel)) else []
  {
    var evs := VariableEvents(env, c, sel);
    var fromBuffer := BufferedEvents(env, c.active.value, c.ended, sel, Unread(c.streams, sel));
    assert evs == fromBuffer + evs[|fromBuffer|..];
    DeliveredConcat(fromBuffer, evs[|fromBuffer|..], other);
    BufferedEventsDeliver(env, c.active.value, c.ended, sel, Unread(c.streams, sel), other);
    assert Delivered(evs[|fromBuffer|..], other) == [];
  }

  lemma ReadAllReads(st: Streams, sel: Selector)
    requires Position(st, sel) <= |Buffer(st, sel)|
    ensures Position(ReadAll(st, sel), sel) == |Buffer(st, sel)| && Buffer(ReadAll(st, sel), sel) == Buffer(st, sel)
    ensures Texts(Buffer(st, sel)) == Texts(Buffer(st, sel)[..Position(st, sel)]) + Texts(Unread(st, sel))
    ensures Buffer(st, sel)[..|Buffer(st, sel)|] == Buffer(st, sel)
  {
    TextsConcat(Buffer(st, sel)[..Position(st, sel)], Unread(st, sel));
    assert Buffer(st, sel)[..Position(st, sel)] + Unread(st, sel) == Buffer(st, sel);
  }

  lemma {:induction false} RunSegmentsDelivers(env: Env, c: Coord, log: seq<Emitted>)
    requires c.active.Some? && AllDelivered(c.streams, log)
    ensures var (r, evs) := RunSegments(env, c); AllDelivered(r.streams, log + evs)
    decreases |c.active.value.template| - c.active.value.index
  {
    var s := c.active.value;
    if s.index >= |s.template| {
      assert log + [] == log;
    } else {
      match s.template[s.index]
      case Text(text) =>
        var evs := [TextEvent(c, text)];
        forall sel ensures DeliveredPrefix(c.streams, log + evs, sel) {
          assert DeliveredPrefix(c.streams, log, sel);
          DeliveredConcat(log, evs, sel);
        }
        RunSegmentsDelivers(env, Advance(c), log + evs);
        assert log + (evs + RunSegments(env, Advance(c)).1) == (log + evs) + RunSegments(env, Advance(c)).1;
      case Variable(sel) =>
        if SourceSkipped(env, sel) {
          RunSegmentsDelivers(env, Advance(c), log);
        } else {
          var evs := VariableEvents(env, c, sel);
          var c1 := c.(streams := ReadAll(c.streams, sel));
          VariableEventsDeliver(env, c, sel, log);
          if VariableCompletes(env, c.streams, sel) {
            RunSegmentsDelivers(env, Advance(c1), log + evs);
            assert log + (evs + RunSegments(env, Advance(c1)).1) == (log + evs) + RunSegments(env, Advance(c1)).1;
          }
        }
    }
  }

  lemma {:induction false} TryFlushDelivers(env: Env, c: Coord, log: seq<Emitted>)
    requires AllDelivered(c.streams, log)
    ensures var (r, evs) := TryFlush(env, c); AllDelivered(r.streams, log + evs)
    decreases |c.waiting|, 1
  {
    if c.active.None? {
      assert log + [] == log;
    } else {
      var (c1, evs) := RunSegments(env, c);
      RunSegmentsDelivers(env, c, log);
      if IsComplete(c1.active.value) {
        EndSessionDelivers(env, c1, log + evs);
        assert log + (evs + EndSession(env, c1).1) == (log + evs) + EndSession(env, c1).1;
      }
    }
  }

  lemma {:induction false} EndSessionDelivers(env: Env, c: Coord, log: seq<Emitted>)
    requires AllDelivered(c.streams, log)
    ensures var (r, evs) := EndSession(env, c); AllDelivered(r.streams, log + evs)
    decreases |c.waiting|, 0
  {
    var c1 := c.(active := None, ended := c.ended + 1);
    if c.waiting == [] {
      assert log + [] == log;
    } else {
      TryFlushDelivers(env, c1.(active := Some(c.waiting[0]), waiting := c.waiting[1..]), log);
    }
  }

  /** Appending to an open stream and closing it delivers nothing and takes nothing back. */
  lemma AppendKeepsDelivered(st: Streams, sel: Selector, chunk: BufferedChunk, log: seq<Emitted>)
    requires AllDelivered(st, log) && sel !in st.closed
    ensures AllDelivered(Append(st, sel, chunk), log) && AllDelivered(Close(Append(st, sel, chunk), sel), log)
  {
    var r := Append(st, sel, chunk);
    forall other ensures DeliveredPrefix(r, log, other) && DeliveredPrefix(Close(r, sel), log, other) {
      assert DeliveredPrefix(st, log, other);
      assert Buffer(r, other)[..Position(r, other)] == Buffer(st, other)[..Position(st, other)];
    }
  }

  // ---------- closed streams ----------

  /** A closed stream, all of which has been delivered. */
  ghost predicate Drained(st: Streams, sel: Selector) {
    sel in st.closed && Position(st, sel) == |Buffer(st, sel)|
  }

  /** A closed stream takes no more chunks, and a drained one stays drained. */
  lemma DrainedIsForever(st: Streams, sel: Selector, other: Selector, chunk: BufferedChunk)
    requires Drained(st, sel)
    ensures Drained(ReadAll(st, other), sel)
    ensures other !in st.closed ==>
      Drained(Append(st, other, chunk), sel) && Drained(Close(Append(st, other, chunk), other), sel)
    ensures other !in st.closed ==> Buffer(Append(st, other, chunk), sel) == Buffer(st, sel)
  {
  }

  /** The stream is closed, read to its end, and holds `chunks`. */
  ghost predicate DrainedOf(st: Streams, sel: Selector, chunks: seq<BufferedChunk>) {
    Drained(st, sel) && Buffer(st, sel) == chunks
  }

  lemma {:induction false} RunKeepsDrained(env: Env, c: Coord, sel: Selector, chunks: seq<BufferedChunk>)
    requires c.active.Some? && DrainedOf(c.streams, sel, chunks)
    ensures DrainedOf(RunSegments(env, c).0.streams, sel, chunks)
    decreases |c.active.value.template| - c.active.value.index
  {
    var s := c.active.value;
    if s.index < |s.template| {
      match s.template[s.index]
      case Text(text) => RunKeepsDrained(env, Advance(c), sel, chunks);
      case Variable(v) =>
        if SourceSkipped(env, v) {
          RunKeepsDrained(env, Advance(c), sel, chunks);
        } else if VariableCompletes(env, c.streams, v) {
          RunKeepsDrained(env, Advance(c.(streams := ReadAll(c.streams, v))), sel, chunks);
        }
    }
  }

  /** Whatever variable segment on a closed stream the session has passed, its buffer has been
      delivered completely. */
  lemma {:induction false} PassedSegmentsAreDrained(env: Env, c: Coord, i: nat, sel: Selector)
    requires c.active.Some? && AllWithin(c.streams)
    requires c.active.value.index <= i < RunSegments(env, c).0.active.value.index && i < |c.active.value.template|
    requires c.active.value.template[i] == Variable(sel) && !SourceSkipped(env, sel) && sel in c.streams.closed
    ensures Drained(RunSegments(env, c).0.streams, sel)
    decreases |c.active.value.template| - c.active.value.index
  {
    var s := c.active.value;
    match s.template[s.index]
    case Text(text) => PassedSegmentsAreDrained(env, Advance(c), i, sel);
    case Variable(v) =>
      if SourceSkipped(env, v) {
        PassedSegmentsAreDrained(env, Advance(c), i, sel);
      } else {
        var c1 := Advance(c.(streams := ReadAll(c.streams, v)));
        if i == s.index {
          assert Position(c.streams, sel) <= |Buffer(c.streams, sel)|;
          RunKeepsDrained(env, c1, sel, Buffer(c1.streams, sel));
        } else {
          forall o ensures Position(c1.streams, o) <= |Buffer(c1.streams, o)| {
            assert Position(c.streams, o) <= |Buffer(c.streams, o)|;
          }
          PassedSegmentsAreDrained(env, c1, i, sel);
        }
      }
  }

  ghost predicate AllWithin(st: Streams) {
    forall sel :: Position(st, sel) <= |Buffer(st, sel)|
  }

  // ---------- progress ----------

  /** Every variable that is left in the session can be completed now. */
  ghost predicate Resolvable(env: Env, st: Streams, s: Session) {
    forall i :: s.index <= i < |s.template| && s.template[i].Variable? ==>
      SourceSkipped(env, s.template[i].selector) || VariableCompletes(env, st, s.template[i].selector)
  }

  lemma {:induction false} ResolvableRunsOut(env: Env, c: Coord)
    requires c.active.Some? && Resolvable(env, c.streams, c.active.value)
    ensures IsComplete(RunSegments(env, c).0.active.value)
    ensures RunSegments(env, c).0.streams.closed == c.streams.closed
    decreases |c.active.value.template| - c.active.value.index
  {
    var s := c.active.value;
    if s.index < |s.template| {
      match s.template[s.index]
      case Text(text) => ResolvableRunsOut(env, Advance(c));
      case Variable(v) =>
        if SourceSkipped(env, v) {
          ResolvableRunsOut(env, Advance(c));
        } else {
          ResolvableRunsOut(env, Advance(c.(streams := ReadAll(c.streams, v))));
        }
    }
  }

  lemma SameClosed(env: Env, st: Streams, r: Streams, s: Session)
    requires Resolvable(env, st, s) && r.closed == st.closed
    ensures Resolvable(env, r, s)
  {
  }

  lemma NextIsQueued(c: Coord, r: Coord)
    requires WellQueued(c) && c.active.Some? && c.waiting != []
    requires r == c.(ended := c.ended + 1, active := Some(c.waiting[0]), waiting := c.waiting[1..])
    ensures WellQueued(r)
  {
  }

  /** If every variable of the active and of the waiting templates can be completed, one flush
      ends all sessions. */
  lemma {:induction false} FlushEndsAll(env: Env, c: Coord)
    requires WellQueued(c)
    requires c.active.Some? ==> Resolvable(env, c.streams, c.active.value)
    requires forall i :: 0 <= i < |c.waiting| ==> Resolvable(env, c.streams, c.waiting[i])
    ensures var r := TryFlush(env, c).0; r.active.None? && r.waiting == [] && r.ended == |r.started| == |c.started|
    decreases |c.waiting|
  {
    hide RunSegments, Resolvable;
    if c.active.Some? {
      ResolvableRunsOut(env, c);
      var c1 := RunSegments(env, c).0;
      SameQueue(c, c1);
      if c.waiting != [] {
        var c2 := c1.(ended := c.ended + 1, active := Some(c.waiting[0]), waiting := c.waiting[1..]);
        assert EndSession(env, c1) == TryFlush(env, c2);
        NextIsQueued(c1, c2);
        hide WellQueued;
        forall i | 0 <= i < |c.waiting| ensures Resolvable(env, c2.streams, c.waiting[i]) {
          SameClosed(env, c.streams, c2.streams, c.waiting[i]);
        }
        FlushEndsAll(env, c2);
      }
    }
  }
}
