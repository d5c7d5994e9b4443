/** What one session sends, chunk by chunk and over any number of flushes, against rendering its
    template at once: every variable contributes its meaning less what was delivered of it before. */
module Streaming {
  import opened Templates
  import opened VariablePool
  import opened Graphs
  import opened Paths
  import opened Coordinator
  import opened Sessions
  import opened CoordinatorRuns
  import opened Rendering

  // ---------- texts ----------

  function Concat(texts: seq<string>): string
    decreases |texts|
  {
    if texts == [] then "" else texts[0] + Concat(texts[1..])
  }

  lemma {:induction false} ConcatAppend(a: seq<string>, b: seq<string>)
    ensures Concat(a + b) == Concat(a) + Concat(b)
    decreases |a|
  {
    if a == [] {
      assert a + b == b;
    } else {
      assert (a + b)[1..] == a[1..] + b;
      ConcatAppend(a[1..], b);
    }
  }

  lemma Assoc(a: string, b: string, c: string)
    ensures (a + b) + c == a + (b + c)
  {
  }

  /** Everything that session `k` sent. */
  function SentBy(log: seq<Emitted>, k: nat): string
    decreases |log|
  {
    if log == [] then "" else if log[0].session == k then log[0].text + SentBy(log[1..], k) else SentBy(log[1..], k)
  }

  lemma {:induction false} SentByAppend(a: seq<Emitted>, b: seq<Emitted>, k: nat)
    ensures SentBy(a + b, k) == SentBy(a, k) + SentBy(b, k)
    decreases |a|
  {
    if a == [] {
      assert a + b == b && "" + SentBy(b, k) == SentBy(b, k);
    } else {
      assert (a + b)[1..] == a[1..] + b;
      SentByAppend(a[1..], b, k);
      Assoc(a[0].text, SentBy(a[1..], k), SentBy(b, k));
    }
  }

  lemma {:induction false} SentByOthers(log: seq<Emitted>, k: nat)
    requires forall i :: 0 <= i < |log| ==> log[i].session != k
    ensures SentBy(log, k) == ""
    decreases |log|
  {
    if log != [] { SentByOthers(log[1..], k); }
  }

  /** What each variable of the template is meant to contribute. */
  type Meaning = Selector -> string

  function Means(v: Meaning, seg: Segment): string {
    match seg
    case Text(text) => text
    case Variable(sel) => v(sel)
  }

  /** The first `i` segments. */
  function RenderTo(t: seq<Segment>, v: Meaning, i: nat): string
    requires i <= |t|
  {
    if i == 0 then "" else RenderTo(t, v, i - 1) + Means(v, t[i - 1])
  }

  // ---------- what a segment sends ----------

  /** Everything that segment `j` of session `k` sent. */
  function SegmentText(log: seq<Emitted>, k: nat, j: nat): string
    decreases |log|
  {
    if log == [] then ""
    else if log[0].session == k && log[0].segment == j then log[0].text + SegmentText(log[1..], k, j)
    else SegmentText(log[1..], k, j)
  }

  predicate Earlier(ev: Emitted, k: nat, j: nat) { ev.session < k || (ev.session == k && ev.segment < j) }

  /** What the sessions before `k`, and its own segments before `j`, delivered of a stream. */
  function EarlierText(log: seq<Emitted>, sel: Selector, k: nat, j: nat): string
    decreases |log|
  {
    if log == [] then ""
    else if log[0].buffered && log[0].selector == sel && Earlier(log[0], k, j) then
      log[0].text + EarlierText(log[1..], sel, k, j)
    else EarlierText(log[1..], sel, k, j)
  }

  lemma {:induction false} SegmentTextAppend(a: seq<Emitted>, b: seq<Emitted>, k: nat, j: nat)
    ensures SegmentText(a + b, k, j) == SegmentText(a, k, j) + SegmentText(b, k, j)
    decreases |a|
  {
    if a == [] {
      assert a + b == b && "" + SegmentText(b, k, j) == SegmentText(b, k, j);
    } else {
      assert (a + b)[1..] == a[1..] + b;
      SegmentTextAppend(a[1..], b, k, j);
      Assoc(a[0].text, SegmentText(a[1..], k, j), SegmentText(b, k, j));
    }
  }

  lemma {:induction false} EarlierTextAppend(a: seq<Emitted>, b: seq<Emitted>, sel: Selector, k: nat, j: nat)
    ensures EarlierText(a + b, sel, k, j) == EarlierText(a, sel, k, j) + EarlierText(b, sel, k, j)
    decreases |a|
  {
    if a == [] {
      assert a + b == b && "" + EarlierText(b, sel, k, j) == EarlierText(b, sel, k, j);
    } else {
      assert (a + b)[1..] == a[1..] + b;
      EarlierTextAppend(a[1..], b, sel, k, j);
      Assoc(a[0].text, EarlierText(a[1..], sel, k, j), EarlierText(b, sel, k, j));
    }
  }

  /** All events come after segment `j` of session `k`. */
  ghost predicate Later(evs: seq<Emitted>, k: nat, j: nat) {
    forall i :: 0 <= i < |evs| ==> evs[i].session > k || (evs[i].session == k && evs[i].segment > j)
  }

  lemma {:induction false} LaterIsSilent(evs: seq<Emitted>, sel: Selector, k: nat, j: nat)
    requires Later(evs, k, j)
    ensures SegmentText(evs, k, j) == "" && EarlierText(evs, sel, k, j) == ""
    decreases |evs|
  {
    if evs != [] { LaterIsSilent(evs[1..], sel, k, j); }
  }

  lemma LaterChangesNothing(log: seq<Emitted>, evs: seq<Emitted>, sel: Selector, k: nat, j: nat)
    requires Later(evs, k, j)
    ensures SegmentText(log + evs, k, j) == SegmentText(log, k, j)
    ensures EarlierText(log + evs, sel, k, j) == EarlierText(log, sel, k, j)
  {
    LaterIsSilent(evs, sel, k, j);
    SegmentTextAppend(log, evs, k, j);
    EarlierTextAppend(log, evs, sel, k, j);
    assert SegmentText(log, k, j) + "" == SegmentText(log, k, j);
    assert EarlierText(log, sel, k, j) + "" == EarlierText(log, sel, k, j);
  }

  lemma SortedTail(log: seq<Emitted>)
    requires Sorted(log) && log != []
    ensures Sorted(log[1..]) && forall i :: 0 <= i < |log[1..]| ==> Before(log[0], log[1..][i])
  {
    forall i | 0 <= i < |log[1..]| ensures Before(log[0], log[1..][i]) { assert log[1..][i] == log[i + 1]; }
    forall i, j | 0 <= i < j < |log[1..]| ensures Before(log[1..][i], log[1..][j]) {
      assert log[1..][i] == log[i + 1] && log[1..][j] == log[j + 1];
    }
  }

  /** All events come up to segment `j` of session `k`, which has sent only chunks of `sel`. */
  ghost predicate ChunksUpTo(log: seq<Emitted>, sel: Selector, k: nat, j: nat) {
    forall i :: 0 <= i < |log| ==>
      Earlier(log[i], k, j) || (log[i].session == k && log[i].segment == j && log[i].buffered && log[i].selector == sel)
  }

  /** What was delivered of the stream is what was delivered earlier and what the segment sent. */
  lemma {:induction false} DeliveredSplits(log: seq<Emitted>, sel: Selector, k: nat, j: nat)
    requires Sorted(log) && ChunksUpTo(log, sel, k, j)
    ensures Concat(Delivered(log, sel)) == EarlierText(log, sel, k, j) + SegmentText(log, k, j)
    decreases |log|
  {
    hide Sorted, ChunksUpTo, Concat, Delivered;
    if log == [] {
      NothingSplits(sel, k, j);
    } else {
      SortedTail(log);
      ChunksTail(log, sel, k, j);
      DeliveredSplits(log[1..], sel, k, j);
      if Earlier(log[0], k, j) {
        SplitsEarlier(log, sel, k, j);
      } else {
        NothingIsEarlier(log, sel, k, j);
        DeliveredCons(log, sel);
      }
    }
  }

  lemma NothingSplits(sel: Selector, k: nat, j: nat)
    ensures Concat(Delivered([], sel)) == EarlierText([], sel, k, j) + SegmentText([], k, j)
  {
  }

  lemma ChunksTail(log: seq<Emitted>, sel: Selector, k: nat, j: nat)
    requires ChunksUpTo(log, sel, k, j) && log != []
    ensures ChunksUpTo(log[1..], sel, k, j)
    ensures !Earlier(log[0], k, j) ==>
      log[0].session == k && log[0].segment == j && log[0].buffered && log[0].selector == sel
  {
    forall i | 0 <= i < |log[1..]| ensures log[1..][i] == log[i + 1] {
    }
  }

  lemma SplitsEarlier(log: seq<Emitted>, sel: Selector, k: nat, j: nat)
    requires log != [] && Earlier(log[0], k, j)
    requires Concat(Delivered(log[1..], sel)) == EarlierText(log[1..], sel, k, j) + SegmentText(log[1..], k, j)
    ensures Concat(Delivered(log, sel)) == EarlierText(log, sel, k, j) + SegmentText(log, k, j)
  {
    hide Concat, EarlierText, SegmentText;
    var a, b := EarlierText(log[1..], sel, k, j), SegmentText(log[1..], k, j);
    EarlierStep(log, sel, k, j);
    if log[0].buffered && log[0].selector == sel {
      DeliveredCons(log, sel);
      Assoc(log[0].text, a, b);
    } else {
      NotDelivered(log, sel);
    }
  }

  lemma EarlierStep(log: seq<Emitted>, sel: Selector, k: nat, j: nat)
    requires log != [] && Earlier(log[0], k, j)
    ensures SegmentText(log, k, j) == SegmentText(log[1..], k, j)
    ensures EarlierText(log, sel, k, j) ==
      if log[0].buffered && log[0].selector == sel then log[0].text + EarlierText(log[1..], sel, k, j)
      else EarlierText(log[1..], sel, k, j)
  {
  }

  lemma NotDelivered(log: seq<Emitted>, sel: Selector)
    requires log != [] && !(log[0].buffered && log[0].selector == sel)
    ensures Delivered(log, sel) == Delivered(log[1..], sel)
  {
  }

  lemma DeliveredCons(log: seq<Emitted>, sel: Selector)
    requires log != [] && log[0].buffered && log[0].selector == sel
    ensures Concat(Delivered(log, sel)) == log[0].text + Concat(Delivered(log[1..], sel))
  {
    assert Delivered(log, sel)[1..] == Delivered(log[1..], sel);
  }

  lemma {:induction false} NothingIsEarlier(log: seq<Emitted>, sel: Selector, k: nat, j: nat)
    requires Sorted(log) && log != [] && log[0].session == k && log[0].segment == j
    ensures EarlierText(log, sel, k, j) == "" && EarlierText(log[1..], sel, k, j) == ""
    decreases |log|
  {
    SortedTail(log);
    NoneEarlier(log[1..], sel, k, j);
  }

  lemma {:induction false} NoneEarlier(evs: seq<Emitted>, sel: Selector, k: nat, j: nat)
    requires forall i :: 0 <= i < |evs| ==> evs[i].buffered && evs[i].selector == sel ==> !Earlier(evs[i], k, j)
    ensures EarlierText(evs, sel, k, j) == ""
    decreases |evs|
  {
    if evs != [] {
      forall i | 0 <= i < |evs[1..]| ensures evs[1..][i] == evs[i + 1] {
      }
      NoneEarlier(evs[1..], sel, k, j);
    }
  }

  // ---------- what is asked of streams and pool ----------

  /** A variable whose source is skipped means nothing, and nothing was streamed; a closed stream adds
      up to what the variable means; a value that is visible while the stream is open means the same,
      and nothing was streamed. */
  ghost predicate FitsAt(env: Env, st: Streams, v: Meaning, sel: Selector) {
    && (SourceSkipped(env, sel) ==> v(sel) == "" && Buffer(st, sel) == [])
    && (sel in st.closed ==> Concat(Texts(Buffer(st, sel))) == v(sel))
    && (sel !in st.closed && Get(env.pool, sel).Some? ==>
      Get(env.pool, sel).value.markdown == v(sel) && Buffer(st, sel) == [])
  }

  ghost predicate Fits(env: Env, st: Streams, v: Meaning, t: seq<Segment>) {
    forall i :: 0 <= i < |t| && t[i].Variable? ==> FitsAt(env, st, v, t[i].selector)
  }

  /** Segment `j` has sent its text, or what its variable means less what was delivered before. */
  ghost predicate Fulfilled(log: seq<Emitted>, k: nat, t: seq<Segment>, v: Meaning, j: nat)
    requires j < |t|
  {
    match t[j]
    case Text(text) => SegmentText(log, k, j) == text
    case Variable(sel) => EarlierText(log, sel, k, j) + SegmentText(log, k, j) == v(sel)
  }

  ghost predicate Exact(log: seq<Emitted>, k: nat, t: seq<Segment>, v: Meaning, n: nat) {
    n <= |t| && forall j :: 0 <= j < n ==> Fulfilled(log, k, t, v, j)
  }

  /** What was sent at the index: chunks of its variable only, since anything else completes it. */
  ghost predicate UnderWay(log: seq<Emitted>, k: nat, t: seq<Segment>, i: nat) {
    forall e :: 0 <= e < |log| && log[e].session == k && log[e].segment == i ==>
      i < |t| && t[i].Variable? && log[e].buffered && log[e].selector == t[i].selector
  }

  /** The active session has fulfilled the segments before its index. */
  ghost predicate OnTrack(c: Coord, log: seq<Emitted>, v: Meaning)
    requires c.active.Some?
  {
    var s := c.active.value;
    && Sorted(log) && Bounded(c, log) && AllDelivered(c.streams, log)
    && Exact(log, c.ended, s.template, v, s.index)
    && UnderWay(log, c.ended, s.template, s.index)
  }

  // ---------- one round of segments ----------

  lemma LaterKeepsExact(log: seq<Emitted>, evs: seq<Emitted>, k: nat, t: seq<Segment>, v: Meaning, n: nat)
    requires Exact(log, k, t, v, n)
    requires forall i :: 0 <= i < |evs| ==> evs[i].session > k || (evs[i].session == k && evs[i].segment >= n)
    ensures Exact(log + evs, k, t, v, n)
  {
    forall j | 0 <= j < n ensures Fulfilled(log + evs, k, t, v, j) {
      assert Fulfilled(log, k, t, v, j);
      LaterChangesNothing(log, evs, if t[j].Variable? then t[j].selector else [], k, j);
    }
  }

  /** Nothing was sent beyond the index. */
  lemma BeyondIndexIsEmpty(c: Coord, log: seq<Emitted>, t: seq<Segment>, i: nat)
    requires c.active.Some? && Bounded(c, log) && i > c.active.value.index
    ensures UnderWay(log, c.ended, t, i)
  {
    forall e | 0 <= e < |log| ensures log[e].session != c.ended || log[e].segment != i {
      assert WithinTurn(c, log[e]);
    }
  }

  lemma TextStaysOnTrack(c: Coord, v: Meaning, text: string, log: seq<Emitted>)
    requires c.active.Some? && c.active.value.index < |c.active.value.template|
    requires c.active.value.template[c.active.value.index] == Text(text) && OnTrack(c, log, v)
    ensures OnTrack(Advance(c), log + [TextEvent(c, text)], v)
  {
    hide Sorted, Bounded;
    var k, t, i := c.ended, c.active.value.template, c.active.value.index;
    var evs := [TextEvent(c, text)];
    TextKeepsOrder(c, log, text);
    TextDelivers(c, text, log);
    hide AllDelivered;
    LaterKeepsExact(log, evs, k, t, v, i);
    SegmentTextAppend(log, evs, k, i);
    NoTextAt(log, k, i);
    OneText(evs, k, i);
    assert Fulfilled(log + evs, k, t, v, i);
    BeyondIndexIsEmpty(c, log, t, i + 1);
    UnderWayAppend(log, evs, k, t, i + 1);
  }

  lemma UnderWayAppend(log: seq<Emitted>, evs: seq<Emitted>, k: nat, t: seq<Segment>, i: nat)
    requires UnderWay(log, k, t, i) && UnderWay(evs, k, t, i)
    ensures UnderWay(log + evs, k, t, i)
  {
  }

  lemma TextDelivers(c: Coord, text: string, log: seq<Emitted>)
    requires c.active.Some? && AllDelivered(c.streams, log)
    ensures AllDelivered(c.streams, log + [TextEvent(c, text)])
  {
    forall sel ensures DeliveredPrefix(c.streams, log + [TextEvent(c, text)], sel) {
      assert DeliveredPrefix(c.streams, log, sel);
      DeliveredConcat(log, [TextEvent(c, text)], sel);
    }
  }

  lemma OneText(evs: seq<Emitted>, k: nat, j: nat)
    requires |evs| == 1 && evs[0].session == k && evs[0].segment == j
    ensures SegmentText(evs, k, j) == evs[0].text
  {
    assert evs[1..] == [];
    assert evs[0].text + "" == evs[0].text;
  }

  lemma {:induction false} NoTextAt(log: seq<Emitted>, k: nat, j: nat)
    requires forall e :: 0 <= e < |log| ==> log[e].session != k || log[e].segment != j
    ensures SegmentText(log, k, j) == ""
    decreases |log|
  {
    if log != [] { NoTextAt(log[1..], k, j); }
  }

  /** A variable segment keeps the session on track: past the variable if it is complete. */
  lemma VariableStaysOnTrack(env: Env, c: Coord, v: Meaning, sel: Selector, log: seq<Emitted>)
    requires c.active.Some? && c.active.value.index < |c.active.value.template|
    requires c.active.value.template[c.active.value.index] == Variable(sel)
    requires FitsAt(env, c.streams, v, sel) && OnTrack(c, log, v)
    ensures var c1 := c.(streams := ReadAll(c.streams, sel));
      OnTrack(if VariableCompletes(env, c.streams, sel) then Advance(c1) else c1, log + VariableEvents(env, c, sel), v)
  {
    hide Sorted, Bounded, AllDelivered, FitsAt, Get, ReadAll, VariableEvents, Exact, UnderWay;
    var k, t, i := c.ended, c.active.value.template, c.active.value.index;
    var evs := VariableEvents(env, c, sel);
    VariableKeepsOrder(env, c, log, sel);
    VariableEventsDeliver(env, c, sel, log);
    VariableEventsAre(env, c, sel);
    LaterKeepsExact(log, evs, k, t, v, i);
    if VariableCompletes(env, c.streams, sel) {
      CompleteMeans(env, c, v, sel, log);
      ExactNext(log + evs, k, t, v, i);
      BeyondIndexIsEmpty(c.(streams := ReadAll(c.streams, sel)), log + evs, t, i + 1);
    } else {
      OpenSendsChunks(env, c, sel);
      ChunksUnderWay(evs, k, t, i);
      UnderWayAppend(log, evs, k, t, i);
    }
  }

  lemma ExactNext(log: seq<Emitted>, k: nat, t: seq<Segment>, v: Meaning, n: nat)
    requires Exact(log, k, t, v, n) && n < |t| && Fulfilled(log, k, t, v, n)
    ensures Exact(log, k, t, v, n + 1)
  {
    hide Fulfilled;
  }

  /** Unless the pool has the value, a variable sends chunks only. */
  lemma OpenSendsChunks(env: Env, c: Coord, sel: Selector)
    requires c.active.Some?
    ensures var evs := VariableEvents(env, c, sel);
      sel in c.streams.closed || Get(env.pool, sel).None? ==>
        forall e :: 0 <= e < |evs| ==> evs[e].buffered && evs[e].selector == sel
  {
    BufferedEventsAre(env, c.active.value, c.ended, sel, Unread(c.streams, sel));
  }

  lemma ChunksUnderWay(evs: seq<Emitted>, k: nat, t: seq<Segment>, i: nat)
    requires i < |t| && t[i].Variable?
    requires forall e :: 0 <= e < |evs| ==> evs[e].buffered && evs[e].selector == t[i].selector
    ensures UnderWay(evs, k, t, i)
  {
  }

  /** Up to its index a session has sent chunks of the variable there. */
  lemma UpToIndex(c: Coord, log: seq<Emitted>, sel: Selector)
    requires c.active.Some? && Bounded(c, log) && c.active.value.index < |c.active.value.template|
    requires c.active.value.template[c.active.value.index] == Variable(sel)
    requires UnderWay(log, c.ended, c.active.value.template, c.active.value.index)
    ensures ChunksUpTo(log, sel, c.ended, c.active.value.index)
  {
    var i := c.active.value.index;
    forall e | 0 <= e < |log|
      ensures Earlier(log[e], c.ended, i) ||
        (log[e].session == c.ended && log[e].segment == i && log[e].buffered && log[e].selector == sel)
    {
      assert WithinTurn(c, log[e]);
    }
  }

  /** A complete variable has sent its meaning, less what was delivered of it before. */
  lemma CompleteMeans(env: Env, c: Coord, v: Meaning, sel: Selector, log: seq<Emitted>)
    requires c.active.Some? && c.active.value.index < |c.active.value.template|
    requires c.active.value.template[c.active.value.index] == Variable(sel)
    requires FitsAt(env, c.streams, v, sel) && OnTrack(c, log, v) && VariableCompletes(env, c.streams, sel)
    ensures Fulfilled(log + VariableEvents(env, c, sel), c.ended, c.active.value.template, v, c.active.value.index)
  {
    hide Sorted, Bounded, AllDelivered, Get, ReadAll, VariableEvents, Exact, UnderWay, Concat;
    var k, t, i := c.ended, c.active.value.template, c.active.value.index;
    if sel in c.streams.closed {
      ClosedMeans(env, c, v, sel, log);
    } else {
      PooledMeans(env, c, v, sel, log);
    }
  }

  lemma ClosedMeans(env: Env, c: Coord, v: Meaning, sel: Selector, log: seq<Emitted>)
    requires c.active.Some? && c.active.value.index < |c.active.value.template|
    requires c.active.value.template[c.active.value.index] == Variable(sel)
    requires FitsAt(env, c.streams, v, sel) && OnTrack(c, log, v) && sel in c.streams.closed
    ensures Fulfilled(log + VariableEvents(env, c, sel), c.ended, c.active.value.template, v, c.active.value.index)
  {
    hide Sorted, Bounded, VariableEvents, Exact, UnderWay, Concat, Get;
    var k, t, i := c.ended, c.active.value.template, c.active.value.index;
    var evs, c1 := VariableEvents(env, c, sel), c.(streams := ReadAll(c.streams, sel));
    VariableKeepsOrder(env, c, log, sel);
    VariableEventsDeliver(env, c, sel, log);
    assert DeliveredPrefix(c.streams, log, sel) && DeliveredPrefix(c1.streams, log + evs, sel);
    ReadAllReads(c.streams, sel);
    OpenSendsChunks(env, c, sel);
    ChunksUnderWay(evs, k, t, i);
    UnderWayAppend(log, evs, k, t, i);
    UpToIndex(c1, log + evs, sel);
    DeliveredSplits(log + evs, sel, k, i);
  }

  /** With an empty buffer nothing was delivered, and the value goes out in one piece. */
  lemma PooledMeans(env: Env, c: Coord, v: Meaning, sel: Selector, log: seq<Emitted>)
    requires c.active.Some? && c.active.value.index < |c.active.value.template|
    requires c.active.value.template[c.active.value.index] == Variable(sel)
    requires FitsAt(env, c.streams, v, sel) && OnTrack(c, log, v)
    requires sel !in c.streams.closed && Get(env.pool, sel).Some?
    ensures Fulfilled(log + VariableEvents(env, c, sel), c.ended, c.active.value.template, v, c.active.value.index)
  {
    hide Sorted, Bounded, Exact, UnderWay, Get;
    var k, t, i := c.ended, c.active.value.template, c.active.value.index;
    var evs := VariableEvents(env, c, sel);
    assert DeliveredPrefix(c.streams, log, sel);
    assert Unread(c.streams, sel) == [] && |evs| == 1;
    UpToIndex(c, log, sel);
    DeliveredSplits(log, sel, k, i);
    assert Delivered(log, sel) == [] && Concat(Delivered(log, sel)) == "";
    SegmentTextAppend(log, evs, k, i);
    EarlierTextAppend(log, evs, sel, k, i);
    OneText(evs, k, i);
    assert evs[1..] == [];
  }

  lemma FitsReadAll(env: Env, st: Streams, v: Meaning, t: seq<Segment>, sel: Selector)
    requires Fits(env, st, v, t)
    ensures Fits(env, ReadAll(st, sel), v, t)
  {
    var r := ReadAll(st, sel);
    forall i | 0 <= i < |t| && t[i].Variable? ensures FitsAt(env, r, v, t[i].selector) {
      assert FitsAt(env, st, v, t[i].selector);
    }
  }

  lemma {:induction false} RunStaysOnTrack(env: Env, c: Coord, v: Meaning, log: seq<Emitted>)
    requires c.active.Some? && Fits(env, c.streams, v, c.active.value.template) && OnTrack(c, log, v)
    ensures var (r, evs) := RunSegments(env, c);
      OnTrack(r, log + evs, v) && Fits(env, r.streams, v, c.active.value.template)
    decreases |c.active.value.template| - c.active.value.index
  {
    hide OnTrack, Fits;
    var s := c.active.value;
    if s.index >= |s.template| {
      assert log + [] == log;
    } else {
      match s.template[s.index]
      case Text(text) =>
        var evs := [TextEvent(c, text)];
        TextStaysOnTrack(c, v, text, log);
        RunStaysOnTrack(env, Advance(c), v, log + evs);
        assert log + (evs + RunSegments(env, Advance(c)).1) == (log + evs) + RunSegments(env, Advance(c)).1;
      case Variable(sel) =>
        FitsThere(env, c.streams, v, s.template, s.index);
        if SourceSkipped(env, sel) {
          SkippedStaysOnTrack(env, c, v, sel, log);
          RunStaysOnTrack(env, Advance(c), v, log);
        } else {
          var evs := VariableEvents(env, c, sel);
          var c1 := c.(streams := ReadAll(c.streams, sel));
          VariableStaysOnTrack(env, c, v, sel, log);
          FitsReadAll(env, c.streams, v, s.template, sel);
          if VariableCompletes(env, c.streams, sel) {
            RunStaysOnTrack(env, Advance(c1), v, log + evs);
            assert log + (evs + RunSegments(env, Advance(c1)).1) == (log + evs) + RunSegments(env, Advance(c1)).1;
          }
        }
    }
  }

  lemma FitsThere(env: Env, st: Streams, v: Meaning, t: seq<Segment>, i: nat)
    requires Fits(env, st, v, t) && i < |t| && t[i].Variable?
    ensures FitsAt(env, st, v, t[i].selector)
  {
  }

  /** A variable whose source is skipped is passed over, and that is what it means. */
  lemma SkippedStaysOnTrack(env: Env, c: Coord, v: Meaning, sel: Selector, log: seq<Emitted>)
    requires c.active.Some? && c.active.value.index < |c.active.value.template|
    requires c.active.value.template[c.active.value.index] == Variable(sel)
    requires FitsAt(env, c.streams, v, sel) && OnTrack(c, log, v) && SourceSkipped(env, sel)
    ensures OnTrack(Advance(c), log, v)
  {
    hide Sorted, Bounded, Exact, UnderWay, Get;
    var k, t, i := c.ended, c.active.value.template, c.active.value.index;
    assert DeliveredPrefix(c.streams, log, sel);
    UpToIndex(c, log, sel);
    DeliveredSplits(log, sel, k, i);
    assert Delivered(log, sel) == [] && Concat(Delivered(log, sel)) == "";
    ExactNext(log, k, t, v, i);
    BeyondIndexIsEmpty(c, log, t, i + 1);
    Onward(c, Advance(c), log);
  }

  // ---------- a whole session ----------

  /** The first `n` segments. */
  function SegmentsText(log: seq<Emitted>, k: nat, n: nat): string {
    if n == 0 then "" else SegmentsText(log, k, n - 1) + SegmentText(log, k, n - 1)
  }

  function SentTo(log: seq<Emitted>, k: nat, n: nat): string
    decreases |log|
  {
    if log == [] then ""
    else if log[0].session == k && log[0].segment < n then log[0].text + SentTo(log[1..], k, n)
    else SentTo(log[1..], k, n)
  }

  lemma {:induction false} SentToNext(log: seq<Emitted>, k: nat, n: nat)
    requires Sorted(log)
    ensures SentTo(log, k, n + 1) == SentTo(log, k, n) + SegmentText(log, k, n)
    decreases |log|
  {
    hide Sorted;
    if log != [] {
      SortedTail(log);
      SentToNext(log[1..], k, n);
      if log[0].session == k && log[0].segment == n {
        NothingSentTo(log[1..], k, n);
        FirstOfSegment(log, k, n);
      } else if log[0].session == k && log[0].segment < n {
        Assoc(log[0].text, SentTo(log[1..], k, n), SegmentText(log[1..], k, n));
      }
    }
  }

  lemma FirstOfSegment(log: seq<Emitted>, k: nat, n: nat)
    requires log != [] && log[0].session == k && log[0].segment == n && SentTo(log[1..], k, n) == ""
    ensures SentTo(log, k, n) == "" && "" + SegmentText(log, k, n) == SegmentText(log, k, n)
    ensures "" + SegmentText(log[1..], k, n) == SegmentText(log[1..], k, n)
  {
  }

  lemma {:induction false} NothingSentTo(log: seq<Emitted>, k: nat, n: nat)
    requires forall i :: 0 <= i < |log| ==> log[i].session != k || log[i].segment >= n
    ensures SentTo(log, k, n) == ""
    decreases |log|
  {
    if log != [] { NothingSentTo(log[1..], k, n); }
  }

  lemma {:induction false} SentToIsSegments(log: seq<Emitted>, k: nat, n: nat)
    requires Sorted(log)
    ensures SentTo(log, k, n) == SegmentsText(log, k, n)
    decreases n
  {
    hide Sorted, SentTo, SegmentText;
    if n == 0 {
      NothingSentTo(log, k, 0);
    } else {
      SentToIsSegments(log, k, n - 1);
      SentToNext(log, k, n - 1);
    }
  }

  /** A session sends its segments one after the other. */
  lemma {:induction false} SentByIsSegments(log: seq<Emitted>, k: nat, n: nat)
    requires Sorted(log) && forall i :: 0 <= i < |log| && log[i].session == k ==> log[i].segment < n
    ensures SentBy(log, k) == SegmentsText(log, k, n)
  {
    SentToIsSegments(log, k, n);
    SentToAll(log, k, n);
  }

  lemma {:induction false} SentToAll(log: seq<Emitted>, k: nat, n: nat)
    requires forall i :: 0 <= i < |log| && log[i].session == k ==> log[i].segment < n
    ensures SentTo(log, k, n) == SentBy(log, k)
    decreases |log|
  {
    if log != [] { SentToAll(log[1..], k, n); }
  }

  /** Nothing of the variables among the first `n` segments was delivered before their turn. */
  ghost predicate NothingBefore(log: seq<Emitted>, k: nat, t: seq<Segment>, n: nat) {
    forall j :: 0 <= j < n && j < |t| && t[j].Variable? ==> EarlierText(log, t[j].selector, k, j) == ""
  }

  lemma {:induction false} SegmentsAreShorter(log: seq<Emitted>, k: nat, t: seq<Segment>, v: Meaning, n: nat)
    requires n <= |t| && Exact(log, k, t, v, n)
    ensures |SegmentsText(log, k, n)| <= |RenderTo(t, v, n)|
    ensures |SegmentsText(log, k, n)| == |RenderTo(t, v, n)| ==> NothingBefore(log, k, t, n)
    ensures NothingBefore(log, k, t, n) ==> SegmentsText(log, k, n) == RenderTo(t, v, n)
    decreases n
  {
    hide EarlierText, SegmentText;
    if n > 0 {
      SegmentsAreShorter(log, k, t, v, n - 1);
      assert Fulfilled(log, k, t, v, n - 1);
    }
  }

  /** A fulfilled session has sent its rendered template exactly when nothing of its variables had
      been delivered before. */
  lemma RenderedIffNothingBefore(log: seq<Emitted>, k: nat, t: seq<Segment>, v: Meaning)
    requires Exact(log, k, t, v, |t|)
    ensures SegmentsText(log, k, |t|) == RenderTo(t, v, |t|) <==> NothingBefore(log, k, t, |t|)
  {
    SegmentsAreShorter(log, k, t, v, |t|);
  }

  // ---------- equality with rendering at once ----------

  /** Literal texts that do not themselves name a value of the pool. */
  ghost predicate PlainTexts(pool: Pool, t: seq<Segment>) {
    forall i :: 0 <= i < |t| && t[i].Text? && '.' in t[i].text ==> Get(pool, SplitDots(t[i].text)).None?
  }

  /** All variables resolve, to what they mean. */
  ghost predicate AllResolve(pool: Pool, v: Meaning, t: seq<Segment>) {
    forall i :: 0 <= i < |t| && t[i].Variable? ==>
      Get(pool, t[i].selector).Some? && Get(pool, t[i].selector).value.markdown == v(t[i].selector)
  }

  lemma {:induction false} RenderToIsRender(pool: Pool, v: Meaning, t: seq<Segment>, i: nat)
    requires i <= |t| && PlainTexts(pool, t) && AllResolve(pool, v, t)
    ensures RenderTo(t, v, i) == Render(pool, t[..i])
    decreases i
  {
    hide Get, SplitDots;
    if i > 0 {
      RenderToIsRender(pool, v, t, i - 1);
      assert t[..i] == t[..i - 1] + [t[i - 1]];
      RenderConcat(pool, t[..i - 1], [t[i - 1]]);
      RenderOne(pool, t[i - 1]);
    } else {
      assert t[..0] == [];
    }
  }

  lemma RenderOne(pool: Pool, seg: Segment)
    ensures Render(pool, [seg]) == RenderSegment(pool, seg)
  {
    assert [seg][1..] == [];
    assert RenderSegment(pool, seg) + "" == RenderSegment(pool, seg);
  }
}
