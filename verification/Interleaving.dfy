/** The dispatcher thread at the grain at which workers can interleave with it (dispatcher.py,
    worker.py). A handler enqueues nodes one at a time while workers already take them; the checks
    of the loop, the fetches and the two draining phases are separate steps. Every such run is a
    run of `Runs`, in which a handler is one step. */
module Interleaving {
  import opened Graphs
  import opened Traversal
  import opened Completion
  import opened Marking
  import opened Scheduler
  import opened Runs

  /** Where the dispatcher thread is. While it handles an event, `todo` are the nodes that it has
      still to put into the ready queue; afterwards it goes on at `back`. */
  datatype Pc =
    | Check                                  // head of the loop
    | Fetching                               // about to fetch an event
    | Handling(todo: seq<NodeId>, back: Pc)
    | DrainIdle                              // paused: drain while nodes execute
    | IdleCheck                              // paused, and the queue was empty
    | Drain                                  // fetch what is left
    | Finish                                 // the handler raised
    | Ended

  /** The engine as it is: its ready queue holds only the nodes already put. */
  datatype Micro = Micro(e: Engine, pc: Pc)

  datatype MicroStep =
    | WorkerTakes
    | WorkerEmits(event: Event)
    | Decide
    | Fetch
    | FetchRefused
    | TimeOut
    | Put
    | Done
    | Command(command: Step)
    | StopEvent
    | Finishing
    | Restart(paused: seq<NodeId>, deferred: seq<NodeId>)

  function WithQueue(e: Engine, queue: seq<NodeId>): Engine { e.(core := e.core.(s := e.core.s.(queue := queue))) }

  /** The engine once the handler under way has put its nodes. */
  function Abs(m: Micro): Engine {
    if m.pc.Handling? then WithQueue(m.e, m.e.core.s.queue + m.pc.todo) else m.e
  }

  predicate Halting(e: Engine) { e.flags.aborted || e.flags.error }

  function Back(pc: Pc): Pc { if pc.Fetching? then Check else pc }

  /** The nodes that `r` has queued beyond `e`. */
  function Puts(e: Engine, r: Engine): seq<NodeId> {
    if |e.core.s.queue| <= |r.core.s.queue| then r.core.s.queue[|e.core.s.queue|..] else []
  }

  ghost predicate MicroNext(g: Graph, m: Micro, step: MicroStep, r: Micro)
    requires Wf(g)
  {
    var e := m.e;
    match step
    case WorkerTakes =>
      e.core.s.queue != [] && r.pc == m.pc &&
      r.e == WithQueue(e, e.core.s.queue[1..]).(held := e.held + {e.core.s.queue[0]})
    case WorkerEmits(ev) =>
      ev.node in e.held && r.pc == m.pc &&
      r.e == e.(events := e.events + [ev], held := if Midway(ev) then e.held else e.held - {ev.node})
    case Decide =>
      r.e == e &&
      (match m.pc
       case Check =>
         r.pc == if e.abandoned || Halting(e) || Idle(e) then Drain else if e.flags.paused then DrainIdle else Fetching
       case DrainIdle => e.abandoned && r.pc == Drain
       case IdleCheck => r.pc == if e.core.s.executing == {} then Drain else DrainIdle
       case _ => false)
    case Fetch =>
      (m.pc.Fetching? || m.pc.DrainIdle? || m.pc.Drain?) && e.events != [] &&
      (Midway(e.events[0]) || Pending(g, e.core.s.edge, e.events[0].node, Out(g, e.events[0].node))) &&
      var (c, f) := HandleEvent(g, e.core, e.flags, e.events[0]);
      var after := e.(core := c, flags := f, events := e.events[1..]);
      r == if c.crashed != {} then Micro(after, Finish)
           else Micro(WithQueue(after, e.core.s.queue), Handling(Puts(e, after), Back(m.pc)))
    case FetchRefused =>
      (m.pc.Fetching? || m.pc.DrainIdle? || m.pc.Drain?) && e.events != [] && Midway(e.events[0]) &&
      r == Micro(e.(events := e.events[1..], refused := true, flags := e.flags.(error := true, completed := true)),
        Finish)
    case TimeOut =>
      r.e == e && e.events == [] && ((m.pc.Fetching? && r.pc == Check) || (m.pc.DrainIdle? && r.pc == IdleCheck))
    case Put =>
      m.pc.Handling? && m.pc.todo != [] &&
      r == Micro(WithQueue(e, e.core.s.queue + [m.pc.todo[0]]), Handling(m.pc.todo[1..], m.pc.back))
    case Done =>
      m.pc.Handling? && m.pc.todo == [] && r == Micro(e, m.pc.back)
    case Command(c) =>
      (c.PauseCommand? || c.AbortCommand? || c.UpdateCommand?) && (m.pc.Check? || m.pc.DrainIdle? || m.pc.Drain?) &&
      r.pc == m.pc && Next(g, e, c, r.e)
    case StopEvent => !m.pc.Ended? && r == m.(e := e.(abandoned := true))
    case Finishing =>
      (m.pc.Finish? || (m.pc.Drain? && e.events == [])) && r.pc == Ended &&
      r.e == e.(stopped := true, refused := false, flags := if e.flags.paused then e.flags
        else e.flags.(completed := true))
    case Restart(paused, deferred) =>
      m.pc.Ended? && Next(g, e, Resume(paused, deferred), Resumed(e, paused, deferred)) &&
      var after := Resumed(e, paused, deferred);
      r == Micro(WithQueue(after, e.core.s.queue), Handling(Puts(e, after), Check))
  }

  // ---------- the invariant ----------

  /** Nothing but the stop event, an abort or an error lets the loop end while nodes execute. */
  predicate Settling(e: Engine) { e.abandoned || Halting(e) || e.core.s.executing == {} }

  ghost predicate PcOk(m: Micro) {
    && (m.pc.Handling? ==> m.pc.back.Check? || m.pc.back.DrainIdle? || (m.pc.back.Drain? && Settling(m.e)))
    && (m.pc.Drain? ==> Settling(m.e))
    && (m.pc.Finish? <==> (m.e.core.crashed != {} || m.e.refused) && !m.pc.Ended?)
    && (m.e.stopped <==> m.pc.Ended?)
  }

  ghost predicate MicroInv(g: Graph, inactive: set<NodeId>, m: Micro) {
    Inv(g, inactive, Abs(m)) && PcOk(m)
  }

  /** The step of `Runs` that a fine step makes, if any; the others change nothing there. */
  function StepOf(m: Micro, step: MicroStep): seq<Step> {
    match step
    case WorkerTakes => [TakeNode]
    case WorkerEmits(ev) => [Emit(ev)]
    case Fetch => [Dispatch]
    case FetchRefused => [Refuse]
    case Command(c) => [c]
    case StopEvent => [Abandon]
    case Finishing => [Stop]
    case Restart(p, d) => [Resume(p, d)]
    case _ => []
  }

  ghost predicate Simulates(g: Graph, m: Micro, step: MicroStep, r: Micro)
    requires Wf(g)
  {
    var steps := StepOf(m, step);
    if steps == [] then Abs(r) == Abs(m) else Next(g, Abs(m), steps[0], Abs(r))
  }

  lemma TakeSimulates(g: Graph, m: Micro, r: Micro)
    requires Wf(g) && MicroNext(g, m, WorkerTakes, r)
    ensures Simulates(g, m, WorkerTakes, r)
  {
    var q := m.e.core.s.queue;
    if m.pc.Handling? {
      assert (q + m.pc.todo)[0] == q[0] && (q + m.pc.todo)[1..] == q[1..] + m.pc.todo;
    }
  }

  lemma PutSimulates(g: Graph, m: Micro, r: Micro)
    requires Wf(g) && MicroNext(g, m, Put, r)
    ensures Abs(r) == Abs(m)
  {
    var q, todo := m.e.core.s.queue, m.pc.todo;
    assert q + [todo[0]] + todo[1..] == q + todo;
  }

  /** A handler only appends to the ready queue. */
  lemma HandlerAppends(g: Graph, inactive: set<NodeId>, e: Engine)
    requires Wf(g) && Promoted(g) && Inv(g, inactive, e) && e.events != []
    requires Midway(e.events[0]) || Pending(g, e.core.s.edge, e.events[0].node, Out(g, e.events[0].node))
    ensures e.core.s.queue <= HandleEvent(g, e.core, e.flags, e.events[0]).0.s.queue
  {
    hide CoreOk, Pending, HandleEvent;
    var ev := e.events[0];
    if Midway(ev) {
      HandlingChunk(g, e.core, e.flags, ev);
    } else {
      LedgerOnce(e, ev.node);
      assert Terminals(e.events) == multiset{ev.node} + Terminals(e.events[1..]);
      HandleKeepsCore(g, inactive, e.core, e.flags, ev);
    }
  }

  lemma HandlingChunk(g: Graph, c: Core, f: Flags, ev: Event)
    requires Wf(g) && Midway(ev)
    ensures HandleEvent(g, c, f, ev) == (c, f)
  {
  }

  lemma FetchSimulates(g: Graph, inactive: set<NodeId>, m: Micro, r: Micro)
    requires Wf(g) && Promoted(g) && MicroInv(g, inactive, m) && MicroNext(g, m, Fetch, r)
    ensures Simulates(g, m, Fetch, r)
  {
    hide Inv, Pending, HandleEvent;
    HandlerAppends(g, inactive, m.e);
    var (c, f) := HandleEvent(g, m.e.core, m.e.flags, m.e.events[0]);
    var after := m.e.(core := c, flags := f, events := m.e.events[1..]);
    assert m.e.core.s.queue + Puts(m.e, after) == c.s.queue;
  }

  lemma RestartSimulates(g: Graph, inactive: set<NodeId>, m: Micro, p: seq<NodeId>, d: seq<NodeId>, r: Micro)
    requires Wf(g) && MicroInv(g, inactive, m) && MicroNext(g, m, Restart(p, d), r)
    ensures Simulates(g, m, Restart(p, d), r)
  {
    hide Inv, Resumed;
    CompletionIsSound(g, inactive, m.e);
    assert m.e.core.s.queue + Puts(m.e, Resumed(m.e, p, d)) == Resumed(m.e, p, d).core.s.queue;
  }

  lemma FinishingSimulates(g: Graph, inactive: set<NodeId>, m: Micro, r: Micro)
    requires Wf(g) && MicroInv(g, inactive, m) && MicroNext(g, m, Finishing, r)
    ensures Simulates(g, m, Finishing, r)
  {
    hide CoreOk;
    if m.pc.Drain? && !m.e.abandoned && !Halting(m.e) { CompletionIsSound(g, inactive, m.e); }
  }

  /** Every fine step is a step of `Runs`, or none at all. */
  lemma MicroRefines(g: Graph, inactive: set<NodeId>, m: Micro, step: MicroStep, r: Micro)
    requires Wf(g) && Promoted(g) && MicroInv(g, inactive, m) && MicroNext(g, m, step, r)
    ensures Simulates(g, m, step, r)
  {
    hide Inv, Pending, HandleEvent, Resumed;
    match step
    case WorkerTakes => TakeSimulates(g, m, r);
    case Put => PutSimulates(g, m, r);
    case Fetch => FetchSimulates(g, inactive, m, r);
    case Restart(p, d) => RestartSimulates(g, inactive, m, p, d, r);
    case Finishing => FinishingSimulates(g, inactive, m, r);
    case Done => assert m.e.core.s.queue + [] == m.e.core.s.queue;
    case _ =>
  }

  /** Draining goes on only for the stop event, an abort or an error: otherwise there is nothing
      to fetch. */
  lemma DrainFetchesOnlyWhenHalting(g: Graph, inactive: set<NodeId>, m: Micro)
    requires MicroInv(g, inactive, m) && m.pc.Drain? && m.e.events != []
    ensures m.e.abandoned || Halting(m.e)
  {
    if !m.e.abandoned && !Halting(m.e) { CompletionIsSound(g, inactive, m.e); }
  }

  lemma HaltingStays(g: Graph, c: Core, f: Flags, ev: Event)
    requires Wf(g) && (Midway(ev) || Pending(g, c.s.edge, ev.node, Out(g, ev.node)))
    ensures var q := HandleEvent(g, c, f, ev).1; f.aborted || f.error ==> q.aborted || q.error
  {
    hide Pending, HandleBranchCompletion, ProcessNodeSuccess, Complete;
  }

  lemma FetchKeepsPc(g: Graph, inactive: set<NodeId>, m: Micro, r: Micro)
    requires Wf(g) && Promoted(g) && MicroInv(g, inactive, m) && MicroNext(g, m, Fetch, r)
    ensures PcOk(r)
  {
    hide Inv, Pending, HandleEvent;
    if m.pc.Drain? {
      DrainFetchesOnlyWhenHalting(g, inactive, m);
      HaltingStays(g, m.e.core, m.e.flags, m.e.events[0]);
    }
  }

  lemma MicroStepKeepsPc(g: Graph, inactive: set<NodeId>, m: Micro, step: MicroStep, r: Micro)
    requires Wf(g) && Promoted(g) && MicroInv(g, inactive, m) && MicroNext(g, m, step, r)
    ensures PcOk(r)
  {
    hide Inv, Pending, HandleEvent;
    match step
    case Fetch => FetchKeepsPc(g, inactive, m, r);
    case Restart(p, d) => RestartKeepsPc(g, inactive, m, p, d, r);
    case Command(c) => hide Resumed; assert r.e.core == m.e.core && r.e.stopped == m.e.stopped;
    case _ =>
  }

  lemma RestartKeepsPc(g: Graph, inactive: set<NodeId>, m: Micro, p: seq<NodeId>, d: seq<NodeId>, r: Micro)
    requires Wf(g) && MicroInv(g, inactive, m) && MicroNext(g, m, Restart(p, d), r)
    ensures PcOk(r)
  {
    hide CoreOk, ResumeNodes;
    LedgerIsEmpty(m.e);
  }

  /** The invariant of the scheduler, with the handler's puts accounted for, holds after every
      fine step. */
  lemma MicroStepKeepsInv(g: Graph, inactive: set<NodeId>, m: Micro, step: MicroStep, r: Micro)
    requires Wf(g) && Promoted(g) && MicroInv(g, inactive, m) && MicroNext(g, m, step, r)
    ensures MicroInv(g, inactive, r)
  {
    hide Inv, Next, MicroNext, PcOk, Abs;
    MicroRefines(g, inactive, m, step, r);
    if StepOf(m, step) != [] { StepKeepsInv(g, inactive, Abs(m), StepOf(m, step)[0], Abs(r)); }
    MicroStepKeepsPc(g, inactive, m, step, r);
  }

  ghost predicate IsMicroRun(g: Graph, trace: seq<Micro>, steps: seq<MicroStep>)
    requires Wf(g)
  {
    |trace| == |steps| + 1 && forall i :: 0 <= i < |steps| ==> MicroNext(g, trace[i], steps[i], trace[i + 1])
  }

  /** A run begins while the root is being put into the queue; workers are running already. */
  function MicroStarted(g: Graph, s: State): Micro {
    Micro(WithQueue(Started(g, s), []), Handling([g.root], Check))
  }

  lemma {:induction false} MicroRunKeepsInv(g: Graph, inactive: set<NodeId>, s: State, trace: seq<Micro>,
      steps: seq<MicroStep>, i: nat)
    requires Wf(g) && Promoted(g) && Fresh(g, inactive, s) && IsMicroRun(g, trace, steps)
    requires trace[0] == MicroStarted(g, s) && i < |trace|
    ensures MicroInv(g, inactive, trace[i])
  {
    hide MicroNext, Inv;
    if i == 0 {
      StartedIsInv(g, inactive, s);
      assert [] + [g.root] == [g.root];
      assert Abs(trace[0]) == Started(g, s);
    } else {
      MicroRunKeepsInv(g, inactive, s, trace, steps, i - 1);
      MicroStepKeepsInv(g, inactive, trace[i - 1], steps[i - 1], trace[i]);
    }
  }

  /** Completion detection is sound under every interleaving: outside a handler the executing set
      is the disjoint union of queued and held nodes and those with an unhandled terminal event;
      and when the loop head sees nothing queued and nothing executing, no worker holds a node
      and the event queue is empty. */
  lemma DetectionIsSound(g: Graph, inactive: set<NodeId>, s: State, trace: seq<Micro>, steps: seq<MicroStep>, i: nat)
    requires Wf(g) && Promoted(g) && Fresh(g, inactive, s) && IsMicroRun(g, trace, steps)
    requires trace[0] == MicroStarted(g, s) && i < |trace|
    ensures !trace[i].pc.Handling? ==> Ledger(trace[i].e)
    ensures trace[i].pc.Check? && Idle(trace[i].e) ==> trace[i].e.held == {} && trace[i].e.events == []
    ensures trace[i].pc.Drain? && !trace[i].e.abandoned && !Halting(trace[i].e) ==>
      trace[i].e.held == {} && trace[i].e.events == [] && trace[i].e.core.s.queue == []
  {
    hide IsMicroRun, CoreOk, Fresh;
    MicroRunKeepsInv(g, inactive, s, trace, steps, i);
    if !trace[i].pc.Handling? && trace[i].e.core.s.executing == {} { CompletionIsSound(g, inactive, trace[i].e); }
  }

  /** Every interleaved run projects to a run of `Runs` that ends in the same state, so what is
      proved of those runs (order of marks, bounded attempts, one outcome) holds here. */
  lemma {:induction false} MicroRunProjects(g: Graph, inactive: set<NodeId>, s: State, trace: seq<Micro>,
      steps: seq<MicroStep>, i: nat)
    returns (run: seq<Engine>, taken: seq<Step>)
    requires Wf(g) && Promoted(g) && Fresh(g, inactive, s) && IsMicroRun(g, trace, steps)
    requires trace[0] == MicroStarted(g, s) && i < |trace|
    ensures IsRun(g, run, taken) && run[0] == Started(g, s) && run[|run| - 1] == Abs(trace[i])
  {
    hide MicroNext, MicroInv, Next;
    if i == 0 {
      assert [] + [g.root] == [g.root];
      run, taken := [Started(g, s)], [];
    } else {
      run, taken := MicroRunProjects(g, inactive, s, trace, steps, i - 1);
      MicroRunKeepsInv(g, inactive, s, trace, steps, i - 1);
      MicroRefines(g, inactive, trace[i - 1], steps[i - 1], trace[i]);
      var extra := StepOf(trace[i - 1], steps[i - 1]);
      if extra != [] { run, taken := RunSnoc(g, run, taken, extra[0], Abs(trace[i])); }
    }
  }

  lemma RunSnoc(g: Graph, trace: seq<Engine>, steps: seq<Step>, step: Step, e: Engine) returns (t: seq<Engine>,
      ss: seq<Step>)
    requires Wf(g) && IsRun(g, trace, steps) && Next(g, trace[|trace| - 1], step, e)
    ensures IsRun(g, t, ss) && t[0] == trace[0] && t[|t| - 1] == e
  {
    hide Next;
    t, ss := trace + [e], steps + [step];
    forall i | 0 <= i < |ss| ensures Next(g, t[i], ss[i], t[i + 1]) {
      if i < |steps| { assert t[i] == trace[i] && t[i + 1] == trace[i + 1] && ss[i] == steps[i]; }
    }
  }
}
