/** How runs end: which event `_emit_terminal_events` sends (graph_engine.py), and what that says
    about the graph. */
module Outcomes {
  import opened Templates
  import opened Graphs
  import opened Traversal
  import opened Completion
  import opened Marking
  import opened Scheduler
  import opened Runs
  import opened Semantics

  /** A partial success is a success after handled failures. */
  datatype Terminal = RunPaused | RunAborted | RunFailed | RunSucceeded

  /** The order of the tests matters: a pause masks an abort. A generator that the consumer has
      closed yields nothing more. */
  function TerminalEvent(e: Engine): Option<Terminal> {
    if e.abandoned then None
    else if e.flags.paused then Some(RunPaused)
    else if e.flags.aborted then Some(RunAborted)
    else if e.flags.error then Some(RunFailed)
    else Some(RunSucceeded)
  }

  /** Flags account for whatever has gone wrong or was put aside, and the dispatcher, unless told to
      stop, ends a run without error only when nothing executes. */
  ghost predicate FlagsOk(e: Engine) {
    && (e.core.paused != {} || e.core.deferred != {} ==> e.flags.paused)
    && (e.core.failed != {} || e.core.crashed != {} || e.refused || e.flags.aborted ==> e.flags.error)
    && (e.stopped && !e.flags.error && !e.abandoned ==> e.core.s.executing == {})
  }

  lemma CompleteKeepsFlags(g: Graph, c: Core, n: NodeId, handle: string, o: Outcome, defer: bool)
    requires o.Done?
    ensures var r := Complete(g, c, n, handle, o, defer);
      r.paused == c.paused && r.failed == c.failed && r.crashed == c.crashed && (!defer ==> r.deferred == c.deferred)
  {
  }

  /** Parked nodes and failures that handling an event adds come with their flag. */
  lemma HandlerKeepsFlags(g: Graph, c: Core, f: Flags, ev: Event)
    requires Wf(g) && (Midway(ev) || Pending(g, c.s.edge, ev.node, Out(g, ev.node)))
    ensures var (r, q) := HandleEvent(g, c, f, ev);
      && (f.paused ==> q.paused) && (f.error ==> q.error) && q.aborted == f.aborted
      && ((r.paused == c.paused && r.deferred == c.deferred) || q.paused)
      && ((r.failed == c.failed && r.crashed == c.crashed) || q.error)
  {
    hide Pending, HandleBranchCompletion, ProcessNodeSuccess, Complete;
    forall n, h, o: Outcome, defer | o.Done? ensures
      var r := Complete(g, c, n, h, o, defer);
      r.paused == c.paused && r.failed == c.failed && r.crashed == c.crashed && (!defer ==> r.deferred == c.deferred)
    {
      CompleteKeepsFlags(g, c, n, h, o, defer);
    }
  }

  lemma StepKeepsFlags(g: Graph, inactive: set<NodeId>, e: Engine, step: Step, r: Engine)
    requires Wf(g) && Inv(g, inactive, e) && Next(g, e, step, r) && FlagsOk(e)
    ensures FlagsOk(r)
  {
    hide CoreOk, Pending, HandleEvent, ResumeNodes, ChunkOk;
    match step
    case Dispatch => HandlerKeepsFlags(g, e.core, e.flags, e.events[0]);
    case Stop => if e.events == [] && Idle(e) { assert e.core.s.executing == {}; }
    case _ =>
  }

  lemma {:induction false} RunKeepsFlags(g: Graph, inactive: set<NodeId>, s: State, trace: seq<Engine>,
      steps: seq<Step>, i: nat)
    requires Wf(g) && Promoted(g) && Fresh(g, inactive, s)
    requires IsRun(g, trace, steps) && trace[0] == Started(g, s) && i < |trace|
    ensures FlagsOk(trace[i])
  {
    hide Next, Inv, Fresh;
    if i > 0 {
      RunKeepsFlags(g, inactive, s, trace, steps, i - 1);
      ReachableIsInv(g, inactive, s, trace, steps, i - 1);
      StepKeepsFlags(g, inactive, trace[i - 1], steps[i - 1], trace[i]);
    }
  }

  /** When a run ends with success, on an acyclic graph whose only sources are the root and the
      inactive roots, every node has finished or is SKIPPED, no edge is UNKNOWN, and the marks are
      those of the recursive semantics for the handles that were selected. */
  lemma SuccessMeansDone(g: Graph, rank: map<NodeId, nat>, inactive: set<NodeId>, s: State, h: Choice,
                         trace: seq<Engine>, steps: seq<Step>, i: nat)
    requires Wf(g) && Promoted(g) && Ranked(g, rank) && Rooted(g, inactive) && Fresh(g, inactive, s)
    requires IsRun(g, trace, steps) && trace[0] == Started(g, s) && i < |trace|
    requires trace[i].stopped && TerminalEvent(trace[i]) == Some(RunSucceeded) && Respects(g, trace[i].core, h)
    ensures var c := trace[i].core;
      && (forall n :: n in g.nodes ==> (n in c.finished <==> NodeMark(c.s, n) != Skipped))
      && (forall n :: n in g.nodes ==> (n in c.finished <==> Executes(g, rank, h, n)))
      && (forall e :: e in g.edges ==> EdgeMark(c.s.edge, e) == if EdgeTaken(g, rank, h, e) then Taken else Skipped)
  {
    hide IsRun, Fresh, Respects, Executes, EdgeTaken, CoreOk;
    RunKeepsFlags(g, inactive, s, trace, steps, i);
    ReachableIsInv(g, inactive, s, trace, steps, i);
    QuiescentIsDenotation(g, rank, inactive, h, trace[i].core);
  }

  /** When a run ends paused and no error is recorded, it is drained, so that its snapshot can be
      taken and resumed. */
  lemma PausedMeansDrained(g: Graph, inactive: set<NodeId>, s: State, trace: seq<Engine>, steps: seq<Step>, i: nat)
    requires Wf(g) && Promoted(g) && Fresh(g, inactive, s)
    requires IsRun(g, trace, steps) && trace[0] == Started(g, s) && i < |trace|
    requires trace[i].stopped && TerminalEvent(trace[i]) == Some(RunPaused) && !trace[i].flags.error
    ensures var e := trace[i];
      && e.core.s.executing == {} && e.core.s.queue == [] && e.held == {} && e.events == []
      && Active(e.core) == e.core.finished.Keys + e.core.paused + e.core.deferred
  {
    hide IsRun, Fresh, CoreOk;
    RunKeepsFlags(g, inactive, s, trace, steps, i);
    ReachableIsInv(g, inactive, s, trace, steps, i);
    CompletionIsSound(g, inactive, trace[i]);
  }

  /** When workers and dispatcher have nothing left to do, the dispatcher may end: with the bound on
      working steps (`Termination.SegmentLength`), a run that is left alone can always be ended. */
  lemma ExhaustedMayStop(g: Graph, inactive: set<NodeId>, e: Engine)
    requires Inv(g, inactive, e) && e.core.s.queue == [] && e.held == {} && e.events == []
    ensures MayStop(e)
  {
    hide CoreOk;
    if e.core.crashed == {} {
      forall n ensures n !in e.core.s.executing { LedgerOnce(e, n); }
    }
  }
}
