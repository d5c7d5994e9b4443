/** What a pause stops and what a resumption sets going again, over whole runs (event_handlers.py,
    dispatcher.py, graph_engine.py). */
module PausedRuns {
  import opened Templates
  import opened VariablePool
  import opened Graphs
  import opened Traversal
  import opened Completion
  import opened Marking
  import opened Scheduler
  import opened Runs
  import opened Outcomes
  import opened HandlerLaws
  import opened RunHistory

  lemma DispatchedExecutes(g: Graph, inactive: set<NodeId>, e: Engine, r: Engine)
    requires Wf(g) && Inv(g, inactive, e) && Next(g, e, Dispatch, r)
    ensures e.events != [] && (r.core, r.flags) == HandleEvent(g, e.core, e.flags, e.events[0])
    ensures !Midway(e.events[0]) ==> e.events[0].node in e.core.s.executing
  {
    hide CoreOk, Pending, HandleEvent;
    if !Midway(e.events[0]) {
      LedgerOnce(e, e.events[0].node);
      assert Terminals(e.events) == multiset{e.events[0].node} + Terminals(e.events[1..]);
    }
  }

  /** The dispatcher handles the success of `n`. In a paused run the nodes that its taken edges
      release are deferred and only those that its unselected paths release are queued; in any other
      run all of them are queued and the deferred nodes are those of before. */
  lemma DispatchOfSuccess(g: Graph, inactive: set<NodeId>, e: Engine, r: Engine)
    requires Wf(g) && Inv(g, inactive, e) && Next(g, e, Dispatch, r)
    requires e.events[0].Succeeded? && (Kind(g, e.events[0].node) == Branch ==> e.events[0].handle != "")
    ensures var n := e.events[0].node;
      var h := if Kind(g, n) == Branch then e.events[0].handle else "";
      var released := Released(g, e.core.s.edge, r.core.s.edge);
      var via := ReleasedVia(g, e.core.s.edge, r.core.s.edge, n, h);
      && r.flags == e.flags && (Kind(g, n) != Branch ==> released - via == {})
      && if e.flags.paused then Finishes(g, e.core, r.core, n, h, released - via, via)
         else Finishes(g, e.core, r.core, n, h, released, {})
  {
    hide CoreOk, Next, HandleEvent, Finishes, Released, ReleasedVia, Ledger;
    DispatchedExecutes(g, inactive, e, r);
    SuccessFinishes(g, inactive, e.core, e.flags, e.events[0].node, e.events[0].handle, e.events[0].outputs);
  }

  // ---------- while a run is paused ----------

  /** The handling of an event that may start nodes in a paused run: the success of a branch, or a
      failure that goes on by an error strategy. */
  predicate Reroutes(g: Graph, e: Engine, step: Step) {
    step.Dispatch? && e.events != [] &&
    match e.events[0]
    case Succeeded(n, _, _) => Kind(g, n) == Branch
    case Failed(n) => !TriesLeft(g, e.core, n) && Strategy(g, n) != Abort
    case _ => false
  }

  /** In a paused run any other step starts no node and takes nothing out of the parked ones. */
  lemma PausedStepStartsNothing(g: Graph, inactive: set<NodeId>, e: Engine, step: Step, r: Engine)
    requires Wf(g) && Inv(g, inactive, e) && Next(g, e, step, r)
    requires e.flags.paused && !step.Resume? && !Reroutes(g, e, step)
    ensures r.core.s.executing <= e.core.s.executing
    ensures e.core.deferred <= r.core.deferred && e.core.paused <= r.core.paused
  {
    hide CoreOk, Ledger, ChunkOk, HandleEvent, Pending, Resumed;
    if step.Dispatch? {
      DispatchedExecutes(g, inactive, e, r);
      hide Next;
      var ev := e.events[0];
      match ev
      case Succeeded(n, _, _) => DispatchOfSuccess(g, inactive, e, r);
      case Failed(n) => PlainFailureStartsNothing(g, inactive, e.core, e.flags, n);
      case PauseRequested(n) => PauseStartsNothing(g, inactive, e.core, e.flags, n);
      case _ => MidwayStartsNothing(g, e.core, e.flags, ev);
    }
  }

  lemma MidwayStartsNothing(g: Graph, c: Core, f: Flags, ev: Event)
    requires Wf(g) && Midway(ev)
    ensures HandleEvent(g, c, f, ev) == (c, f)
  {
  }

  lemma PlainFailureStartsNothing(g: Graph, inactive: set<NodeId>, c: Core, f: Flags, n: NodeId)
    requires Wf(g) && CoreOk(g, inactive, c) && n in c.s.executing
    requires TriesLeft(g, c, n) || Strategy(g, n) == Abort
    ensures Pending(g, c.s.edge, n, Out(g, n))
    ensures var r := HandleEvent(g, c, f, Failed(n)).0;
      r.s.executing <= c.s.executing && r.deferred == c.deferred && r.paused == c.paused
  {
    hide CoreOk, Pending, HandleEvent;
    ExecutingIsTaken(g, inactive, c, n);
    if TriesLeft(g, c, n) {
      FailureRetries(g, inactive, c, f, n);
    } else {
      FailureEndsRun(g, inactive, c, f, n);
    }
  }

  lemma PauseStartsNothing(g: Graph, inactive: set<NodeId>, c: Core, f: Flags, n: NodeId)
    requires Wf(g) && CoreOk(g, inactive, c) && n in c.s.executing
    ensures Pending(g, c.s.edge, n, Out(g, n))
    ensures var r := HandleEvent(g, c, f, PauseRequested(n)).0;
      r.s.executing <= c.s.executing && r.deferred == c.deferred && c.paused <= r.paused
  {
    hide CoreOk, Pending, HandleEvent;
    ExecutingIsPending(g, inactive, c, n);
    PauseParks(g, c, f, n);
  }

  /** Between a pause and its resumption, unless a branch succeeds or a failure goes on by a strategy,
      no node starts: what is executing only gets less, and what is parked stays parked. */
  lemma {:induction false} PauseHolds(g: Graph, inactive: set<NodeId>, trace: seq<Engine>, steps: seq<Step>, i: nat,
      j: nat)
    requires Wf(g) && Promoted(g) && IsRun(g, trace, steps) && Inv(g, inactive, trace[0]) && i <= j < |trace|
    requires trace[i].flags.paused && NoResume(steps, i, j)
    requires forall k :: i <= k < j ==> !Reroutes(g, trace[k], steps[k])
    ensures trace[j].flags.paused && trace[j].core.s.executing <= trace[i].core.s.executing
    ensures trace[i].core.deferred <= trace[j].core.deferred && trace[i].core.paused <= trace[j].core.paused
    decreases j
  {
    hide Next, Inv, Reroutes, Pauses;
    if i < j {
      PauseHolds(g, inactive, trace, steps, i, j - 1);
      RunKeepsInv(g, inactive, trace, steps, j - 1);
      StepFlags(g, trace[j - 1], steps[j - 1], trace[j]);
      PausedStepStartsNothing(g, inactive, trace[j - 1], steps[j - 1], trace[j]);
    }
  }

  // ---------- after a resumption ----------

  lemma {:induction false} RunKeepsFlagsOk(g: Graph, inactive: set<NodeId>, trace: seq<Engine>, steps: seq<Step>,
      i: nat)
    requires Wf(g) && Promoted(g) && IsRun(g, trace, steps) && Inv(g, inactive, trace[0]) && FlagsOk(trace[0])
    requires i < |trace|
    ensures Inv(g, inactive, trace[i]) && FlagsOk(trace[i])
  {
    hide Next, Inv, FlagsOk;
    if i > 0 {
      RunKeepsFlagsOk(g, inactive, trace, steps, i - 1);
      StepKeepsFlags(g, inactive, trace[i - 1], steps[i - 1], trace[i]);
      StepKeepsInv(g, inactive, trace[i - 1], steps[i - 1], trace[i]);
    }
  }

  /** A run that is resumed and not paused again is not paused, and nothing is parked in it. */
  lemma {:induction false} ResumedParksNothing(g: Graph, inactive: set<NodeId>, trace: seq<Engine>, steps: seq<Step>,
      i: nat, j: nat)
    requires Wf(g) && Promoted(g) && IsRun(g, trace, steps) && Inv(g, inactive, trace[0]) && FlagsOk(trace[0])
    requires i < j < |trace| && steps[i].Resume? && forall k :: i < k < j ==> !Pauses(trace[k], steps[k])
    ensures Inv(g, inactive, trace[j]) && !trace[j].flags.paused
    ensures trace[j].core.paused == {} && trace[j].core.deferred == {}
    decreases j
  {
    hide Next, Inv, Pauses;
    if i + 1 < j { ResumedParksNothing(g, inactive, trace, steps, i, j - 1); }
    StepFlags(g, trace[j - 1], steps[j - 1], trace[j]);
    RunKeepsFlagsOk(g, inactive, trace, steps, j);
  }

  /** So a success that is handled then queues every node it releases. */
  lemma SuccessAfterResume(g: Graph, inactive: set<NodeId>, trace: seq<Engine>, steps: seq<Step>, i: nat, j: nat)
    requires Wf(g) && Promoted(g) && IsRun(g, trace, steps) && Inv(g, inactive, trace[0]) && FlagsOk(trace[0])
    requires i < j < |steps| && steps[i].Resume? && forall k :: i < k < j ==> !Pauses(trace[k], steps[k])
    requires steps[j].Dispatch? && trace[j].events != [] && trace[j].events[0].Succeeded?
    requires Kind(g, trace[j].events[0].node) == Branch ==> trace[j].events[0].handle != ""
    ensures var e, r, ev := trace[j], trace[j + 1], trace[j].events[0];
      Finishes(g, e.core, r.core, ev.node, if Kind(g, ev.node) == Branch then ev.handle else "",
               Released(g, e.core.s.edge, r.core.s.edge), {}) && r.core.deferred == {}
  {
    hide Next, Inv, Pauses, FlagsOk, Released, ReleasedVia, EdgesResolved, Queued, Dies;
    ResumedParksNothing(g, inactive, trace, steps, i, j);
    DispatchOfSuccess(g, inactive, trace[j], trace[j + 1]);
  }
}
