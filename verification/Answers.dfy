/** The answer among a run's outputs, and how it compares with what was streamed: the answer lists
    the response nodes in the order in which they completed, the stream in the order in which their
    sessions started. */
module Answers {
  import opened Templates
  import opened VariablePool
  import opened Graphs
  import opened Traversal
  import opened Marking
  import opened Scheduler
  import opened Runs
  import opened Coordinator
  import opened Sessions
  import opened CoordinatorRuns
  import opened StoredPaths
  import opened Reachability
  import opened World
  import opened WorldRuns
  import opened Streaming
  import opened EngineStreaming

  function AnswerIn(outputs: map<string, string>): string { if "answer" in outputs then outputs["answer"] else "" }

  /** The response node that the step completes, with its answer, if there is one. */
  ghost function GivenBy(g: Graph, w: World, m: Move): seq<(NodeId, string)> {
    if !m.step.Dispatch? || w.e.events == [] then []
    else
      var ev := w.e.events[0];
      var produced := if ev.Succeeded? then ev.outputs else m.outputs;
      if CompletedWith(g, w.e.core, ev).None? || Kind(g, ev.node) != Response then []
      else [(ev.node, if "answer" in produced then produced["answer"].markdown else "")]
  }

  /** The response nodes that have completed, in order, with their answers. */
  ghost function Given(g: Graph, trace: seq<World>, moves: seq<Move>, i: nat): seq<(NodeId, string)>
    requires i <= |moves| <= |trace|
  {
    if i == 0 then [] else Given(g, trace, moves, i - 1) + GivenBy(g, trace[i - 1], moves[i - 1])
  }

  function Nodes(pairs: seq<(NodeId, string)>): (ns: seq<NodeId>)
    ensures |ns| == |pairs| && forall i :: 0 <= i < |pairs| ==> ns[i] == pairs[i].0
    decreases |pairs|
  {
    if pairs == [] then [] else [pairs[0].0] + Nodes(pairs[1..])
  }

  function Joined(pairs: seq<(NodeId, string)>): string
    decreases |pairs|
  {
    if pairs == [] then "" else pairs[0].1 + Joined(pairs[1..])
  }

  lemma {:induction false} JoinedConcat(a: seq<(NodeId, string)>, b: seq<(NodeId, string)>)
    ensures Joined(a + b) == Joined(a) + Joined(b)
    decreases |a|
  {
    if a == [] {
      assert a + b == b;
    } else {
      assert (a + b)[1..] == a[1..] + b;
      JoinedConcat(a[1..], b);
    }
  }

  lemma JoinedOne(p: (NodeId, string))
    ensures Joined([p]) == p.1
  {
    assert [p][1..] == [];
    assert p.1 + "" == p.1;
  }

  lemma MergeAppends(before: map<string, string>, outputs: map<string, Value>)
    ensures AnswerIn(MergeOutputs(before, outputs)) ==
      AnswerIn(before) + if "answer" in outputs then outputs["answer"].markdown else ""
  {
  }

  lemma StepAppendsAnswer(g: Graph, w: World, m: Move, r: World)
    requires Wf(g) && WorldNext(g, w, m.step, m.outputs, m.order, r)
    ensures AnswerIn(r.outputs) == AnswerIn(w.outputs) + Joined(GivenBy(g, w, m))
  {
    hide MergeOutputs, AnswerIn, RunOps, Feasible, OpsFor, PoolAfter, HandleEvent, Resumed, Pending, CompletedWith;
    assert AnswerIn(w.outputs) + "" == AnswerIn(w.outputs);
    if m.step.Dispatch? {
      var ev := w.e.events[0];
      var produced := if ev.Succeeded? then ev.outputs else m.outputs;
      MergeAppends(w.outputs, produced);
      JoinedOne((ev.node, if "answer" in produced then produced["answer"].markdown else ""));
    }
  }

  /** The answer of a run is that of its response nodes, in the order in which their completions
      were handled. */
  lemma {:induction false} AnswerIsConcatenation(g: Graph, trace: seq<World>, moves: seq<Move>, i: nat)
    requires Wf(g) && IsWorldRun(g, trace, moves) && trace[0].outputs == map[] && i < |trace|
    ensures AnswerIn(trace[i].outputs) == Joined(Given(g, trace, moves, i))
  {
    hide WorldNext, GivenBy, Wf;
    if i == 0 {
      assert AnswerIn(trace[0].outputs) == "";
    } else {
      hide AnswerIn;
      AnswerIsConcatenation(g, trace, moves, i - 1);
      var m := moves[i - 1];
      assert WorldNext(g, trace[i - 1], m.step, m.outputs, m.order, trace[i]);
      StepAppendsAnswer(g, trace[i - 1], m, trace[i]);
      JoinedConcat(Given(g, trace, moves, i - 1), GivenBy(g, trace[i - 1], m));
    }
  }

  // ---------- each response node answers once ----------

  /** Who completes has not finished before. */
  lemma CompletingIsNew(g: Graph, inactive: set<NodeId>, e: Engine)
    requires Inv(g, inactive, e) && e.events != [] && CompletedWith(g, e.core, e.events[0]).Some?
    ensures e.events[0].node !in e.core.finished
  {
    hide MarksOk, CompletedWith, ChunkOk;
    var ev := e.events[0];
    ChunkCompletesNothing(g, e.core, ev);
    LedgerOnce(e, ev.node);
    assert Terminals(e.events) == multiset{ev.node} + Terminals(e.events[1..]);
    assert ev.node in e.core.s.executing;
  }

  lemma StepFinishes(g: Graph, inactive: set<NodeId>, w: World, m: Move, r: World)
    requires Wf(g) && WorldOk(g, inactive, w) && WorldNext(g, w, m.step, m.outputs, m.order, r)
    ensures |GivenBy(g, w, m)| <= 1
    ensures forall n :: Kind(g, n) == Response ==>
      (n in r.e.core.finished <==> n in w.e.core.finished || n in Nodes(GivenBy(g, w, m)))
    ensures forall n :: n in Nodes(GivenBy(g, w, m)) ==> n !in w.e.core.finished && Kind(g, n) == Response
  {
    hide Inv, Reached, CoordOk, Stored, InOrder, RunOps, Feasible, OpsFor, PoolAfter, HandleEvent, Pending,
      CompletedWith, ResumeNodes, OutputsAfter;
    if m.step.Dispatch? {
      var e, ev := w.e, w.e.events[0];
      HandlerTakes(g, e.core, e.flags, ev);
      if CompletedWith(g, e.core, ev).Some? { CompletingIsNew(g, inactive, e); }
    }
  }

  lemma NodesConcat(a: seq<(NodeId, string)>, b: seq<(NodeId, string)>)
    ensures Nodes(a + b) == Nodes(a) + Nodes(b)
  {
  }

  lemma NoDupSnoc(a: seq<NodeId>, b: seq<NodeId>)
    requires NoDup(a) && |b| <= 1 && forall n :: n in b ==> n !in a
    ensures NoDup(a + b)
  {
    forall n ensures multiset(a + b)[n] <= 1 {
      assert multiset(a + b)[n] == multiset(a)[n] + multiset(b)[n];
      assert n in a <==> multiset(a)[n] > 0;
      if |b| == 1 { assert b == [b[0]]; }
    }
  }

  /** A response node answers exactly once it has finished, and never twice. */
  lemma {:induction false} AnswersOnce(g: Graph, inactive: set<NodeId>, trace: seq<World>, moves: seq<Move>, i: nat)
    requires EngineRun(g, inactive, trace, moves) && i < |trace|
    ensures |trace| == |moves| + 1 && NoDup(Nodes(Given(g, trace, moves, i)))
    ensures forall n ::
      n in Nodes(Given(g, trace, moves, i)) <==> n in trace[i].e.core.finished && Kind(g, n) == Response
  {
    hide WorldOk, WorldNext, Fresh, WorldStarted, GivenBy;
    IsARun(g, inactive, trace, moves);
    if i == 0 {
      StartFinishedNothing(g, inactive, trace, moves);
    } else {
      AnswersOnce(g, inactive, trace, moves, i - 1);
      EngineRunIsOk(g, inactive, trace, moves, i - 1, i - 1);
      StepFinishes(g, inactive, trace[i - 1], moves[i - 1], trace[i]);
      var a, b := Given(g, trace, moves, i - 1), GivenBy(g, trace[i - 1], moves[i - 1]);
      NodesConcat(a, b);
      NoDupSnoc(Nodes(a), Nodes(b));
    }
  }

  lemma StartFinishedNothing(g: Graph, inactive: set<NodeId>, trace: seq<World>, moves: seq<Move>)
    requires EngineRun(g, inactive, trace, moves)
    ensures trace[0].e.core.finished == map[] && trace[0].outputs == map[] && trace[0].log == []
  {
    hide Fresh, RunOps, Feasible;
  }

  // ---------- the stream ----------

  /** Everything that was streamed, in order. */
  function StreamText(log: seq<Emitted>): string
    decreases |log|
  {
    if log == [] then "" else log[0].text + StreamText(log[1..])
  }

  /** The sessions in the order of their starts, with what they have sent. */
  function Streamed(started: seq<NodeId>, log: seq<Emitted>): (pairs: seq<(NodeId, string)>)
    ensures |pairs| == |started| && forall k :: 0 <= k < |started| ==> pairs[k] == (started[k], SentBy(log, k))
  {
    seq(|started|, k requires 0 <= k < |started| => (started[k], SentBy(log, k)))
  }

  /** What the sessions from `k` on sent. */
  function SentFrom(log: seq<Emitted>, k: nat): string
    decreases |log|
  {
    if log == [] then ""
    else if log[0].session >= k then log[0].text + SentFrom(log[1..], k)
    else SentFrom(log[1..], k)
  }

  lemma {:induction false} SentFromNext(log: seq<Emitted>, k: nat)
    requires Sorted(log)
    ensures SentFrom(log, k) == SentBy(log, k) + SentFrom(log, k + 1)
    decreases |log|
  {
    hide Sorted;
    if log != [] {
      SortedTail(log);
      SentFromNext(log[1..], k);
      if log[0].session == k {
        Assoc(log[0].text, SentBy(log[1..], k), SentFrom(log[1..], k + 1));
      } else if log[0].session > k {
        NothingSentBy(log, k);
      }
    }
  }

  lemma NothingSentBy(log: seq<Emitted>, k: nat)
    requires log != [] && log[0].session > k && forall i :: 0 <= i < |log[1..]| ==> Before(log[0], log[1..][i])
    ensures SentBy(log, k) == "" && SentBy(log[1..], k) == ""
    ensures "" + SentFrom(log, k + 1) == SentFrom(log, k + 1)
    ensures "" + SentFrom(log[1..], k + 1) == SentFrom(log[1..], k + 1)
  {
    SentByOthers(log[1..], k);
  }

  lemma {:induction false} StreamIsSentFrom(log: seq<Emitted>)
    ensures StreamText(log) == SentFrom(log, 0)
    decreases |log|
  {
    if log != [] { StreamIsSentFrom(log[1..]); }
  }

  lemma {:induction false} NothingSentFrom(log: seq<Emitted>, k: nat)
    requires forall i :: 0 <= i < |log| ==> log[i].session < k
    ensures SentFrom(log, k) == ""
    decreases |log|
  {
    if log != [] { NothingSentFrom(log[1..], k); }
  }

  lemma {:induction false} SentFromIsJoined(started: seq<NodeId>, log: seq<Emitted>, k: nat)
    requires Sorted(log) && k <= |started| && forall i :: 0 <= i < |log| ==> log[i].session < |started|
    ensures SentFrom(log, k) == Joined(Streamed(started, log)[k..])
    decreases |started| - k
  {
    var pairs := Streamed(started, log);
    if k == |started| {
      NothingSentFrom(log, k);
    } else {
      SentFromNext(log, k);
      SentFromIsJoined(started, log, k + 1);
      assert pairs[k..][1..] == pairs[k + 1..] && pairs[k..][0] == pairs[k];
    }
  }

  /** The stream lists the sessions in the order of their starts. */
  lemma StreamIsJoined(started: seq<NodeId>, log: seq<Emitted>)
    requires Sorted(log) && forall i :: 0 <= i < |log| ==> log[i].session < |started|
    ensures StreamText(log) == Joined(Streamed(started, log))
  {
    StreamIsSentFrom(log);
    SentFromIsJoined(started, log, 0);
    assert Streamed(started, log)[0..] == Streamed(started, log);
  }

  // ---------- the two orders ----------

  /** What the nodes answer is what they have streamed. */
  ghost predicate SaysSame(given: seq<(NodeId, string)>, started: seq<NodeId>, log: seq<Emitted>) {
    forall k, l :: 0 <= k < |started| && 0 <= l < |given| && given[l].0 == started[k] ==> given[l].1 == SentBy(log, k)
  }

  /** If every response node has streamed what it answers, the answers are the sessions exactly when
      the nodes have completed in the order in which their sessions started; then the answer of the
      run is what it has streamed. */
  lemma AnswerIsStreamInOrder(g: Graph, inactive: set<NodeId>, trace: seq<World>, moves: seq<Move>, i: nat)
    requires EngineRun(g, inactive, trace, moves) && i < |trace| && |trace| == |moves| + 1
    requires SaysSame(Given(g, trace, moves, i), trace[i].co.started, trace[i].log)
    ensures Given(g, trace, moves, i) == Streamed(trace[i].co.started, trace[i].log) <==>
      Nodes(Given(g, trace, moves, i)) == trace[i].co.started
    ensures Nodes(Given(g, trace, moves, i)) == trace[i].co.started ==>
      AnswerIn(trace[i].outputs) == StreamText(trace[i].log)
  {
    hide WorldOk, WorldNext, WorldStarted, Fresh, GivenBy, Given, EngineRun;
    var given, w := Given(g, trace, moves, i), trace[i];
    var streamed := Streamed(w.co.started, w.log);
    if Nodes(given) == w.co.started {
      forall k | 0 <= k < |given| ensures given[k] == streamed[k] {
      }
      StartFinishedNothing(g, inactive, trace, moves);
      IsAWorldRun(g, inactive, trace, moves);
      AnswerIsConcatenation(g, trace, moves, i);
      EngineRunIsOk(g, inactive, trace, moves, i, i);
      LogIsOrdered(g, inactive, w);
      StreamIsJoined(w.co.started, w.log);
    }
  }

  lemma IsAWorldRun(g: Graph, inactive: set<NodeId>, trace: seq<World>, moves: seq<Move>)
    requires EngineRun(g, inactive, trace, moves)
    ensures Wf(g) && IsWorldRun(g, trace, moves)
  {
    hide WorldNext, WorldStarted, Fresh;
  }

  lemma LogIsOrdered(g: Graph, inactive: set<NodeId>, w: World)
    requires Wf(g) && WorldOk(g, inactive, w)
    ensures Sorted(w.log) && forall i :: 0 <= i < |w.log| ==> w.log[i].session < |w.co.started|
  {
    hide Inv, Reached, Stored, InOrder, Sorted, AllDelivered, OneSessionEach;
    forall i | 0 <= i < |w.log| ensures w.log[i].session < |w.co.started| { assert WithinTurn(w.co, w.log[i]); }
  }

  function With(ns: seq<NodeId>, text: NodeId -> string): seq<(NodeId, string)>
    decreases |ns|
  {
    if ns == [] then [] else [(ns[0], text(ns[0]))] + With(ns[1..], text)
  }

  lemma {:induction false} JoinedWith(ns: seq<NodeId>, text: NodeId -> string)
    requires ns != []
    ensures Joined(With(ns, text)) == text(ns[0]) + Joined(With(ns[1..], text))
  {
    assert With(ns, text)[1..] == With(ns[1..], text);
  }

  /** Two orders of the same nodes can be told apart by what the nodes say, so answer and stream
      agree whatever the nodes say only if the orders do. */
  lemma {:induction false} OrderTells(a: seq<NodeId>, b: seq<NodeId>) returns (text: NodeId -> string)
    requires NoDup(a) && NoDup(b) && Elems(a) == Elems(b) && a != b
    ensures Joined(With(a, text)) != Joined(With(b, text))
    decreases |a|
  {
    if a == [] {
      ElemsCons(b);
      assert false;
    } else if b == [] {
      ElemsCons(a);
      assert false;
    } else if a[0] == b[0] {
      ElemsCons(a);
      ElemsCons(b);
      NoDupTail(a);
      NoDupTail(b);
      assert a == [a[0]] + a[1..] && b == [b[0]] + b[1..];
      text := OrderTells(a[1..], b[1..]);
      JoinedWith(a, text);
      JoinedWith(b, text);
      SamePrefix(text(a[0]), Joined(With(a[1..], text)), Joined(With(b[1..], text)));
    } else {
      text := n => if n == a[0] then "x" else if n == b[0] then "y" else "";
      JoinedWith(a, text);
      JoinedWith(b, text);
      assert Joined(With(a, text))[0] == 'x' && Joined(With(b, text))[0] == 'y';
    }
  }

  lemma SamePrefix(p: string, a: string, b: string)
    requires a != b
    ensures p + a != p + b
  {
    assert (p + a)[|p|..] == a && (p + b)[|p|..] == b;
  }
}
