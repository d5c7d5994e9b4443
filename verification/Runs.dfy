/** Whole runs: workers, the dispatcher, commands and resumption as steps over the scheduler
    (worker.py, dispatcher.py, execution_coordinator.py, graph_engine.py). */
module Runs {
  import opened Templates
  import opened VariablePool
  import opened Graphs
  import opened Traversal
  import opened Completion
  import opened Marking
  import opened Scheduler

  /** `held` are the nodes that workers have dequeued and not finished, `events` the event
      queue, `refused` says that the handler of an event in mid-attempt raised and the dispatcher
      is about to end, `abandoned` that its stop event was set while it ran, `stopped` that it has
      ended. */
  datatype Engine = Engine(
    core: Core,
    flags: Flags,
    held: set<NodeId>,
    events: seq<Event>,
    refused: bool,
    abandoned: bool,
    stopped: bool)

  datatype Step =
    | TakeNode                                          // a worker dequeues a node
    | Emit(event: Event)                                // a worker puts an event
    | Dispatch                                          // the dispatcher handles an event
    | Refuse                                            // its handler raises in mid-attempt
    | PauseCommand
    | AbortCommand
    | UpdateCommand(updates: seq<(Selector, Value)>)    // variables of the pool are overwritten
    | Abandon                                           // the consumer closes the generator
    | Stop                                              // the dispatcher loop ends
    | Resume(paused: seq<NodeId>, deferred: seq<NodeId>) // a new engine continues the run

  /** `is_execution_complete`. */
  predicate Idle(e: Engine) { e.core.s.queue == [] && e.core.s.executing == {} }

  /** When the dispatcher thread ends: its handler raised, or it left the loop (told to stop,
      aborted, failed, complete, or paused and drained) and the event queue is empty. */
  predicate MayStop(e: Engine) {
    e.core.crashed != {} || e.refused ||
    (e.events == [] &&
     (e.abandoned || e.flags.aborted || e.flags.error || Idle(e) || (e.flags.paused && e.core.s.executing == {})))
  }

  /** The resume loop of `_start_execution`, with its `seen_nodes`. */
  function ResumeNodes(s: State, nodes: seq<NodeId>, seen: set<NodeId>): State
    decreases |nodes|
  {
    if nodes == [] then s
    else if nodes[0] in seen then ResumeNodes(s, nodes[1..], seen)
    else ResumeNodes(Schedule(s, nodes[0]), nodes[1..], seen + {nodes[0]})
  }

  function Resumed(e: Engine, paused: seq<NodeId>, deferred: seq<NodeId>): Engine {
    e.(core := e.core.(s := ResumeNodes(e.core.s, paused + deferred, {}), paused := {}, deferred := {}),
       flags := e.flags.(paused := false),
       abandoned := false,
       stopped := false)
  }

  ghost predicate Next(g: Graph, e: Engine, step: Step, r: Engine)
    requires Wf(g)
  {
    match step
    case TakeNode =>
      e.core.s.queue != [] &&
      r == e.(core := e.core.(s := e.core.s.(queue := e.core.s.queue[1..])), held := e.held + {e.core.s.queue[0]})
    case Emit(ev) =>
      ev.node in e.held &&
      r == e.(events := e.events + [ev], held := if Midway(ev) then e.held else e.held - {ev.node})
    case Dispatch =>
      !e.stopped && e.core.crashed == {} && !e.refused && e.events != [] &&
      (Midway(e.events[0]) || Pending(g, e.core.s.edge, e.events[0].node, Out(g, e.events[0].node))) &&
      var (c, f) := HandleEvent(g, e.core, e.flags, e.events[0]);
      r == e.(core := c, flags := f, events := e.events[1..])
    case Refuse =>
      !e.stopped && e.core.crashed == {} && !e.refused && e.events != [] && Midway(e.events[0]) &&
      r == e.(events := e.events[1..], refused := true, flags := e.flags.(error := true, completed := true))
    case PauseCommand =>
      !e.stopped && r == (if e.flags.completed || e.flags.aborted then e else e.(flags := e.flags.(paused := true)))
    case AbortCommand =>
      !e.stopped && r == e.(flags := e.flags.(aborted := true, error := true))
    case UpdateCommand(_) => !e.stopped && r == e
    case Abandon => !e.stopped && r == e.(abandoned := true)
    case Stop =>
      !e.stopped && MayStop(e) &&
      r == e.(stopped := true, refused := false, flags := if e.flags.paused then e.flags
        else e.flags.(completed := true))
    case Resume(paused, deferred) =>
      e.stopped && e.flags.paused && e.core.s.executing == {} &&
      multiset(paused) == multiset(e.core.paused) && multiset(deferred) == multiset(e.core.deferred) &&
      r == Resumed(e, paused, deferred)
  }

  // ---------- the invariant ----------

  /** Nodes whose terminal event is still to be handled. */
  function Terminals(events: seq<Event>): multiset<NodeId>
    decreases |events|
  {
    if events == [] then multiset{}
    else (if Midway(events[0]) then multiset{} else multiset{events[0].node}) + Terminals(events[1..])
  }

  /** The executing set is the disjoint union of the queued nodes, the nodes held by workers,
      those with an unhandled terminal event, and those whose handler raised. */
  ghost predicate Ledger(e: Engine) {
    multiset(e.core.s.executing) ==
      multiset(e.core.s.queue) + multiset(e.held) + Terminals(e.events) + multiset(e.core.crashed)
  }

  /** A chunk event is followed by the end of its attempt, or the attempt is still running. */
  ghost predicate ChunkOk(e: Engine, i: nat)
    requires i < |e.events|
  {
    Midway(e.events[i]) ==> e.events[i].node in e.held || e.events[i].node in Terminals(e.events[i + 1..])
  }

  ghost predicate Inv(g: Graph, inactive: set<NodeId>, e: Engine) {
    && CoreOk(g, inactive, e.core)
    && Ledger(e)
    && (e.stopped ==> !e.refused)
    && forall i :: 0 <= i < |e.events| ==> ChunkOk(e, i)
  }

  lemma {:induction false} TerminalsConcat(a: seq<Event>, b: seq<Event>)
    ensures Terminals(a + b) == Terminals(a) + Terminals(b)
    decreases |a|
  {
    if a == [] {
      assert a + b == b;
    } else {
      assert (a + b)[1..] == a[1..] + b;
      TerminalsConcat(a[1..], b);
    }
  }

  lemma TerminalsSnoc(a: seq<Event>, ev: Event)
    ensures Terminals(a + [ev]) == Terminals(a) + if Midway(ev) then multiset{} else multiset{ev.node}
  {
    TerminalsConcat(a, [ev]);
    assert Terminals([ev]) == (if Midway(ev) then multiset{} else multiset{ev.node}) + Terminals([ev][1..]);
  }

  /** A node in the ledger's right-hand side occurs there once. */
  lemma LedgerOnce(e: Engine, n: NodeId)
    requires Ledger(e)
    ensures multiset(e.core.s.queue)[n] + multiset(e.held)[n] + Terminals(e.events)[n] + multiset(e.core.crashed)[n]
         == if n in e.core.s.executing then 1 else 0
  {
    assert multiset(e.core.s.executing)[n] == if n in e.core.s.executing then 1 else 0;
  }

  lemma TakeNodeKeepsInv(g: Graph, inactive: set<NodeId>, e: Engine, r: Engine)
    requires Wf(g) && Inv(g, inactive, e) && Next(g, e, TakeNode, r)
    ensures Inv(g, inactive, r)
  {
    var n := e.core.s.queue[0];
    QueueOnlyCore(g, inactive, e.core, r.core);
    assert e.core.s.queue == [n] + e.core.s.queue[1..];
    LedgerOnce(e, n);
    assert multiset(e.core.s.queue)[n] >= 1;
    assert multiset(r.held) == multiset(e.held) + multiset{n};
    forall i | 0 <= i < |r.events| ensures ChunkOk(r, i) { assert ChunkOk(e, i); }
  }

  /** Dequeuing concerns no other part of the core. */
  lemma QueueOnlyCore(g: Graph, inactive: set<NodeId>, c: Core, r: Core)
    requires CoreOk(g, inactive, c) && r == c.(s := c.s.(queue := r.s.queue))
    ensures CoreOk(g, inactive, r)
  {
    hide MarksOk;
    assert Active(r) == Active(c) && On(r) == On(c);
    SameMarks(g, inactive, c.s, r.s, r.finished, Active(c), On(c));
    assert forall k :: Retried(g, c, k) ==> Retried(g, r, k);
  }

  lemma EmitKeepsInv(g: Graph, inactive: set<NodeId>, e: Engine, ev: Event, r: Engine)
    requires Wf(g) && Inv(g, inactive, e) && Next(g, e, Emit(ev), r)
    ensures Inv(g, inactive, r)
  {
    EmitKeepsLedger(e, ev, r);
    hide CoreOk, Ledger, Terminals, HandleEvent, Pending, Wf, MayStop, Resumed;
    forall i | 0 <= i < |r.events| ensures ChunkOk(r, i) {
      if i < |e.events| { EmitKeepsChunk(e, ev, r, i); }
    }
  }

  lemma EmitKeepsLedger(e: Engine, ev: Event, r: Engine)
    requires Ledger(e) && ev.node in e.held
    requires r == e.(events := e.events + [ev], held := if Midway(ev) then e.held else e.held - {ev.node})
    ensures Ledger(r)
  {
    TerminalsSnoc(e.events, ev);
    hide Terminals;
    if !Midway(ev) { assert multiset(e.held) == multiset(r.held) + multiset{ev.node}; }
  }

  lemma EmitKeepsChunk(e: Engine, ev: Event, r: Engine, i: nat)
    requires i < |e.events| && ChunkOk(e, i)
    requires r.events == e.events + [ev] && r.held == if Midway(ev) then e.held else e.held - {ev.node}
    ensures ChunkOk(r, i)
  {
    assert r.events[i + 1..] == e.events[i + 1..] + [ev];
    TerminalsSnoc(e.events[i + 1..], ev);
  }

  lemma DispatchKeepsInv(g: Graph, inactive: set<NodeId>, e: Engine, r: Engine)
    requires Wf(g) && Promoted(g) && Inv(g, inactive, e) && Next(g, e, Dispatch, r)
    ensures Inv(g, inactive, r)
  {
    hide CoreOk, HandleEvent, Pending;
    var ev := e.events[0];
    forall i | 0 <= i < |r.events| ensures ChunkOk(r, i) {
      assert ChunkOk(e, i + 1);
      assert r.events[i + 1..] == e.events[i + 2..];
    }
    if Midway(ev) {
      ChunkChangesNothing(g, e, r);
    } else {
      LedgerOnce(e, ev.node);
      assert Terminals(e.events) == multiset{ev.node} + Terminals(e.events[1..]);
      assert ev.node !in e.core.crashed;
      HandleKeepsCore(g, inactive, e.core, e.flags, ev);
      LedgerAfter(e, r, ev.node);
    }
  }

  lemma RefuseKeepsInv(g: Graph, inactive: set<NodeId>, e: Engine, r: Engine)
    requires Wf(g) && Inv(g, inactive, e) && Next(g, e, Refuse, r)
    ensures Inv(g, inactive, r)
  {
    hide CoreOk;
    forall i | 0 <= i < |r.events| ensures ChunkOk(r, i) {
      assert ChunkOk(e, i + 1);
      assert r.events[i + 1..] == e.events[i + 2..];
    }
    assert Terminals(e.events) == Terminals(r.events);
  }

  lemma ChunkChangesNothing(g: Graph, e: Engine, r: Engine)
    requires Wf(g) && Next(g, e, Dispatch, r) && e.events != [] && Midway(e.events[0])
    ensures r.core == e.core && r.held == e.held && Terminals(r.events) == Terminals(e.events)
  {
  }

  lemma LedgerAfter(e: Engine, r: Engine, n: NodeId)
    requires Ledger(e) && Balanced(e.core, r.core, n)
    requires r.held == e.held && Terminals(e.events) == multiset{n} + Terminals(r.events)
    ensures Ledger(r)
  {
    var q := Queued(e.core.s, r.core.s);
    assert multiset(r.core.s.queue) == multiset(e.core.s.queue) + multiset(q);
    forall k ensures multiset(r.core.s.executing)[k] ==
        (multiset(r.core.s.queue) + multiset(r.held) + Terminals(r.events) + multiset(r.core.crashed))[k] {
      var left := multiset(r.core.s.executing) + multiset(e.core.crashed) + multiset{n};
      var right := multiset(e.core.s.executing) + multiset(r.core.crashed) + multiset(q);
      assert left[k] == right[k];
    }
  }

  // ---------- resuming ----------

  lemma {:induction false} ResumeIsScheduleAll(s: State, nodes: seq<NodeId>, seen: set<NodeId>)
    requires NoDup(nodes) && Elems(nodes) !! seen
    ensures ResumeNodes(s, nodes, seen) == ScheduleAll(s, nodes)
    decreases |nodes|
  {
    if nodes != [] {
      ElemsCons(nodes);
      NoDupTail(nodes);
      ResumeIsScheduleAll(Schedule(s, nodes[0]), nodes[1..], seen + {nodes[0]});
    }
  }

  /** Resuming schedules exactly the paused and the deferred nodes, each once and the paused ones first,
      and keeps the invariant: no ready node is lost. The run is neither paused nor ended nor abandoned
      then, and nothing is parked; what else has happened to it stays. */
  lemma ResumeSchedulesParked(g: Graph, inactive: set<NodeId>, e: Engine, paused: seq<NodeId>, deferred: seq<NodeId>,
      r: Engine)
    requires Wf(g) && Inv(g, inactive, e) && Next(g, e, Resume(paused, deferred), r)
    ensures Inv(g, inactive, r)
    ensures r.core.s.executing == e.core.paused + e.core.deferred
    ensures r.core.s.queue == paused + deferred
    ensures multiset(r.core.s.queue) == multiset(e.core.paused) + multiset(e.core.deferred)
    ensures r.core.s.edge == e.core.s.edge && Active(r.core) == Active(e.core)
    ensures !r.flags.paused && !r.stopped && !r.abandoned && r.core.paused == {} && r.core.deferred == {}
    ensures r.flags.aborted == e.flags.aborted && r.flags.error == e.flags.error &&
      r.flags.completed == e.flags.completed
    ensures r.core.finished == e.core.finished && r.core.failed == e.core.failed && r.core.retries == e.core.retries
  {
    hide CoreOk, ChunkOk, ResumeNodes;
    CoreIsExclusive(g, inactive, e.core);
    ResumedState(e, paused, deferred, r);
    ParkedBecomeOn(g, inactive, e.core, r.core, e.core.paused + e.core.deferred);
    CompletionIsSound(g, inactive, e);
  }

  lemma CoreIsExclusive(g: Graph, inactive: set<NodeId>, c: Core)
    requires CoreOk(g, inactive, c)
    ensures Exclusive(c)
  {
  }

  lemma ResumedState(e: Engine, paused: seq<NodeId>, deferred: seq<NodeId>, r: Engine)
    requires Ledger(e) && Exclusive(e.core) && e.core.s.executing == {}
    requires multiset(paused) == multiset(e.core.paused) && multiset(deferred) == multiset(e.core.deferred)
    requires r == Resumed(e, paused, deferred)
    ensures r.core == e.core.(s := r.core.s, paused := {}, deferred := {}) && r.core.s.edge == e.core.s.edge
    ensures r.core.s.executing == e.core.paused + e.core.deferred
    ensures forall n :: NodeMark(r.core.s, n) == if n in e.core.paused + e.core.deferred then Taken
      else NodeMark(e.core.s, n)
    ensures r.core.s.queue == paused + deferred
    ensures multiset(r.core.s.queue) == multiset(e.core.paused) + multiset(e.core.deferred)
    ensures Ledger(r)
  {
    hide ResumeNodes, ScheduleAll, NoDup, Elems;
    var nodes := paused + deferred;
    LedgerIsEmpty(e);
    ParkedOnce(e.core.paused, e.core.deferred, paused, deferred);
    ResumeIsScheduleAll(e.core.s, nodes, {});
    ScheduleAllEffect(e.core.s, nodes);
    assert e.core.s.queue + nodes == nodes;
    LedgerOfResumed(r, e.core.paused, e.core.deferred);
  }

  lemma LedgerOfResumed(r: Engine, a: set<NodeId>, b: set<NodeId>)
    requires a !! b && r.core.s.executing == a + b && multiset(r.core.s.queue) == multiset(a) + multiset(b)
    requires r.held == {} && Terminals(r.events) == multiset{} && r.core.crashed == {}
    ensures Ledger(r)
  {
    assert multiset(a + b) == multiset(a) + multiset(b);
  }

  lemma ParkedOnce(a: set<NodeId>, b: set<NodeId>, xs: seq<NodeId>, ys: seq<NodeId>)
    requires a !! b && multiset(xs) == multiset(a) && multiset(ys) == multiset(b)
    ensures NoDup(xs + ys) && Elems(xs + ys) == a + b && multiset(xs + ys) == multiset(a) + multiset(b)
  {
    assert forall k :: k in xs <==> multiset(xs)[k] > 0;
    assert forall k :: k in ys <==> multiset(ys)[k] > 0;
  }

  lemma LedgerIsEmpty(e: Engine)
    requires Ledger(e) && e.core.s.executing == {}
    ensures e.core.s.queue == [] && e.held == {} && Terminals(e.events) == multiset{} && e.core.crashed == {}
  {
    if e.core.s.queue != [] { LedgerOnce(e, e.core.s.queue[0]); }
    forall n ensures n !in e.held && Terminals(e.events)[n] == 0 && n !in e.core.crashed { LedgerOnce(e, n); }
  }

  lemma ParkedBecomeOn(g: Graph, inactive: set<NodeId>, c: Core, r: Core, now: set<NodeId>)
    requires Wf(g) && CoreOk(g, inactive, c) && c.s.executing == {} && now == c.paused + c.deferred
    requires r == c.(s := r.s, paused := {}, deferred := {})
    requires r.s.edge == c.s.edge && r.s.executing == now
    requires forall n :: NodeMark(r.s, n) == if n in now then Taken else NodeMark(c.s, n)
    ensures CoreOk(g, inactive, r) && Active(r) == Active(c)
  {
    assert Active(r) == Active(c) && On(r) == On(c) + now;
    forall d | d in g.edges ensures EdgeOk(g, r.s, r.finished, d) {
      assert EdgeOk(g, c.s, c.finished, d);
      if Tail(g, d) in now { ActiveIsNotSkipped(g, inactive, c.s, c.finished, Active(c), On(c), Tail(g, d)); }
    }
    forall k | k in g.nodes ensures SkipOk(g, r.s, inactive, k) && NodeOk(g, r.s, Active(r), On(r), k) {
      assert SkipOk(g, c.s, inactive, k) && NodeOk(g, c.s, Active(c), On(c), k);
      if k in now { ActiveIsNotSkipped(g, inactive, c.s, c.finished, Active(c), On(c), k); }
    }
    assert forall k :: Retried(g, c, k) ==> Retried(g, r, k);
  }

  /** Every step of a run keeps the invariant. */
  lemma StepKeepsInv(g: Graph, inactive: set<NodeId>, e: Engine, step: Step, r: Engine)
    requires Wf(g) && Promoted(g) && Inv(g, inactive, e) && Next(g, e, step, r)
    ensures Inv(g, inactive, r)
  {
    match step
    case TakeNode => TakeNodeKeepsInv(g, inactive, e, r);
    case Emit(ev) => EmitKeepsInv(g, inactive, e, ev, r);
    case Dispatch => DispatchKeepsInv(g, inactive, e, r);
    case Refuse => RefuseKeepsInv(g, inactive, e, r);
    case Resume(p, d) => ResumeSchedulesParked(g, inactive, e, p, d, r);
    case PauseCommand => SameQueues(g, inactive, e, r);
    case AbortCommand => SameQueues(g, inactive, e, r);
    case UpdateCommand(_) =>
    case Abandon => SameQueues(g, inactive, e, r);
    case Stop => SameQueues(g, inactive, e, r);
  }

  lemma SameQueues(g: Graph, inactive: set<NodeId>, e: Engine, r: Engine)
    requires Inv(g, inactive, e) && r.core == e.core && r.held == e.held && r.events == e.events
    requires r.stopped ==> !r.refused
    ensures Inv(g, inactive, r)
  {
    forall i | 0 <= i < |r.events| ensures ChunkOk(r, i) { assert ChunkOk(e, i); }
  }

  /** In a state with the invariant the dispatcher is never stuck on an event. */
  lemma DispatchIsEnabled(g: Graph, inactive: set<NodeId>, e: Engine)
    requires Wf(g) && Inv(g, inactive, e) && e.events != [] && !Midway(e.events[0])
    ensures Pending(g, e.core.s.edge, e.events[0].node, Out(g, e.events[0].node))
  {
    LedgerOnce(e, e.events[0].node);
    ExecutingIsPending(g, inactive, e.core, e.events[0].node);
  }

  // ---------- runs ----------

  /** Marks before the root is scheduled: only what follows from the inactive roots. */
  ghost predicate Fresh(g: Graph, inactive: set<NodeId>, s: State) {
    && s.queue == [] && s.executing == {}
    && (forall d :: d in g.edges ==> EdgeOk(g, s, map[], d))
    && (forall n :: n in g.nodes ==> SkipOk(g, s, inactive, n) && NodeMark(s, n) != Taken)
    && (forall n :: n in inactive ==> n in g.nodes && n != g.root && IsSource(g, n))
  }

  /** `_start_execution` of an initial run. */
  function Started(g: Graph, s: State): Engine {
    Engine(Core(Schedule(s, g.root), map[], {}, {}, {}, {}, map[], []), Flags(false, false, false, false), {}, [],
      false, false, false)
  }

  lemma StartedIsInv(g: Graph, inactive: set<NodeId>, s: State)
    requires Wf(g) && Fresh(g, inactive, s)
    ensures Inv(g, inactive, Started(g, s))
  {
    var c := Started(g, s).core;
    assert Active(c) == {g.root} && On(c) == {g.root};
    assert SkipOk(g, s, inactive, g.root);
    forall d | d in g.edges ensures EdgeOk(g, c.s, map[], d) && EdgeMark(c.s.edge, d) != Taken {
      assert EdgeOk(g, s, map[], d);
    }
    forall n | n in g.nodes ensures SkipOk(g, c.s, inactive, n) && NodeOk(g, c.s, {g.root}, {g.root}, n) {
      assert SkipOk(g, s, inactive, n);
    }
    assert forall k :: Retried(g, c, k);
    assert Elems(c.taken) == {};
    assert [g.root] + [] == [g.root];
  }

  /** A run: engine states linked by steps. */
  ghost predicate IsRun(g: Graph, trace: seq<Engine>, steps: seq<Step>)
    requires Wf(g)
  {
    |trace| == |steps| + 1 && forall i :: 0 <= i < |steps| ==> Next(g, trace[i], steps[i], trace[i + 1])
  }

  lemma {:induction false} RunKeepsInv(g: Graph, inactive: set<NodeId>, trace: seq<Engine>, steps: seq<Step>, i: nat)
    requires Wf(g) && Promoted(g) && IsRun(g, trace, steps) && Inv(g, inactive, trace[0])
    requires i < |trace|
    ensures Inv(g, inactive, trace[i])
  {
    if i > 0 {
      RunKeepsInv(g, inactive, trace, steps, i - 1);
      StepKeepsInv(g, inactive, trace[i - 1], steps[i - 1], trace[i]);
    }
  }

  /** Every state of every run that starts from freshly initialised marks has the invariant. */
  lemma ReachableIsInv(g: Graph, inactive: set<NodeId>, s: State, trace: seq<Engine>, steps: seq<Step>, i: nat)
    requires Wf(g) && Promoted(g) && Fresh(g, inactive, s)
    requires IsRun(g, trace, steps) && trace[0] == Started(g, s) && i < |trace|
    ensures Inv(g, inactive, trace[i])
  {
    StartedIsInv(g, inactive, s);
    RunKeepsInv(g, inactive, trace, steps, i);
  }

  /** Completion detection is sound: when nothing executes, the ready queue is empty, no worker
      holds a node, and no event, not even a chunk, waits to be handled. */
  lemma CompletionIsSound(g: Graph, inactive: set<NodeId>, e: Engine)
    requires Inv(g, inactive, e) && e.core.s.executing == {}
    ensures e.core.s.queue == [] && e.held == {} && e.events == []
  {
    LedgerIsEmpty(e);
    if e.events != [] {
      var last := |e.events| - 1;
      assert ChunkOk(e, last);
      assert e.events == e.events[..last] + [e.events[last]];
      TerminalsSnoc(e.events[..last], e.events[last]);
    }
  }

  // ---------- where nodes are ----------

  /** In how many of the places of scheduled nodes the node is. */
  function Places(c: Core, n: NodeId): nat {
    (if n in c.s.executing then 1 else 0) + (if n in c.finished then 1 else 0) + (if n in c.failed then 1 else 0)
      + (if n in c.paused then 1 else 0) + (if n in c.deferred then 1 else 0)
  }

  /** In every reachable state a node other than the root has all in-edges known and one TAKEN
      exactly when it is executing, finished, failed, paused or deferred, and it is then in one of
      these places only; and it is SKIPPED exactly when it is an inactive root or has in-edges,
      all SKIPPED. */
  lemma ScheduledExactlyOnce(g: Graph, inactive: set<NodeId>, s: State, trace: seq<Engine>, steps: seq<Step>, i: nat,
      n: NodeId)
    requires Wf(g) && Promoted(g) && Fresh(g, inactive, s)
    requires IsRun(g, trace, steps) && trace[0] == Started(g, s) && i < |trace| && n in g.nodes
    ensures var c := trace[i].core;
      && (n != g.root ==> Places(c, n) == if !HasUnknown(g, c.s.edge, n) && HasTaken(g, c.s.edge, n) then 1 else 0)
      && (n == g.root ==> Places(c, n) == 1)
      && (NodeMark(c.s, n) == Skipped <==> n in inactive || (!IsSource(g, n) && AllSkipped(g, c.s.edge, n)))
  {
    hide IsRun, Fresh;
    ReachableIsInv(g, inactive, s, trace, steps, i);
    var c := trace[i].core;
    assert NodeOk(g, c.s, Active(c), On(c), n) && SkipOk(g, c.s, inactive, n);
    OnePlace(c, n);
  }

  lemma OnePlace(c: Core, n: NodeId)
    requires Exclusive(c)
    ensures Places(c, n) == if n in Active(c) then 1 else 0
  {
  }
}
