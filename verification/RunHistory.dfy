/** What the flags of a run say about its history, and so what its terminal event says
    (graph_execution.py, graph_engine.py). */
module RunHistory {
  import opened Templates
  import opened VariablePool
  import opened Graphs
  import opened Traversal
  import opened Completion
  import opened Marking
  import opened Scheduler
  import opened Reachability
  import opened Runs
  import opened Outcomes
  import opened HandlerLaws

  /** A pause that counts: from a command or from a node, in a run that is not over or aborted. */
  predicate Pauses(e: Engine, step: Step) {
    && (step.PauseCommand? || (step.Dispatch? && e.events != [] && e.events[0].PauseRequested?))
    && !e.flags.completed && !e.flags.aborted
  }

  /** An event that fails the run: a node that fails without tries left and without an error strategy,
      a branch without a handle to go on with, or a pause that comes too late. */
  predicate FailsRun(g: Graph, e: Engine, ev: Event) {
    match ev
    case Succeeded(n, handle, _) => Kind(g, n) == Branch && handle == ""
    case Failed(n) =>
      !TriesLeft(g, e.core, n) &&
      (Strategy(g, n) == Abort || (Strategy(g, n) == DefaultValue && Kind(g, n) == Branch))
    case PauseRequested(_) => e.flags.completed || e.flags.aborted
    case _ => false
  }

  predicate Fails(g: Graph, e: Engine, step: Step) {
    step.Refuse? || (step.Dispatch? && e.events != [] && FailsRun(g, e, e.events[0]))
  }

  lemma HandlerFlags(g: Graph, e: Engine, ev: Event)
    requires Wf(g) && (Midway(ev) || Pending(g, e.core.s.edge, ev.node, Out(g, ev.node)))
    ensures var f, q := e.flags, HandleEvent(g, e.core, e.flags, ev).1;
      && q.aborted == f.aborted
      && (q.paused <==> f.paused || (ev.PauseRequested? && !f.completed && !f.aborted))
      && (q.error <==> f.error || FailsRun(g, e, ev)) && (q.completed <==> f.completed || FailsRun(g, e, ev))
  {
    hide Pending, Complete, HandleBranchCompletion, ProcessNodeSuccess, OnRetry;
    if !Midway(ev) {
      RaisingMeans(g, e.core.s, ev.node, "");
      RaisingMeans(g, e.core.s, ev.node, "fail-branch");
      if ev.Succeeded? { RaisingMeans(g, e.core.s, ev.node, ev.handle); }
    }
  }

  /** What a step does to the flags. */
  lemma StepFlags(g: Graph, e: Engine, step: Step, r: Engine)
    requires Wf(g) && Next(g, e, step, r)
    ensures r.flags.paused <==> !step.Resume? && (e.flags.paused || Pauses(e, step))
    ensures r.flags.aborted <==> e.flags.aborted || step.AbortCommand?
    ensures r.flags.error <==> e.flags.error || step.AbortCommand? || Fails(g, e, step)
    ensures r.flags.completed <==> e.flags.completed || (step.Stop? && !e.flags.paused) || Fails(g, e, step)
    ensures r.abandoned <==> !step.Resume? && (e.abandoned || step.Abandon?)
  {
    hide Pending, HandleEvent, ResumeNodes, FailsRun, MayStop;
    if step.Dispatch? { HandlerFlags(g, e, e.events[0]); }
  }

  // ---------- histories ----------

  /** The run has been paused and not been resumed since. */
  ghost predicate PausedSince(trace: seq<Engine>, steps: seq<Step>, i: nat)
    requires i <= |steps| < |trace|
  {
    exists j :: 0 <= j < i && Pauses(trace[j], steps[j]) && NoResume(steps, j + 1, i)
  }

  ghost predicate NoResume(steps: seq<Step>, i: nat, j: nat)
    requires j <= |steps|
  {
    forall k :: i <= k < j ==> !steps[k].Resume?
  }

  ghost predicate AbandonedSince(steps: seq<Step>, i: nat)
    requires i <= |steps|
  {
    exists j :: 0 <= j < i && steps[j].Abandon? && NoResume(steps, j + 1, i)
  }

  ghost predicate HasAborted(steps: seq<Step>, i: nat)
    requires i <= |steps|
  {
    exists j :: 0 <= j < i && steps[j].AbortCommand?
  }

  ghost predicate HasFailed(g: Graph, trace: seq<Engine>, steps: seq<Step>, i: nat)
    requires i <= |steps| < |trace|
  {
    exists j :: 0 <= j < i && Fails(g, trace[j], steps[j])
  }

  lemma PausedSinceStep(trace: seq<Engine>, steps: seq<Step>, i: nat)
    requires i < |steps| < |trace|
    ensures PausedSince(trace, steps, i + 1) <==>
      !steps[i].Resume? && (PausedSince(trace, steps, i) || Pauses(trace[i], steps[i]))
  {
    hide Pauses;
    if PausedSince(trace, steps, i + 1) {
      var j :| 0 <= j < i + 1 && Pauses(trace[j], steps[j]) && NoResume(steps, j + 1, i + 1);
      assert j == i || NoResume(steps, j + 1, i);
      PauseIsNoResume(trace[j], steps[j]);
    }
    if !steps[i].Resume? && PausedSince(trace, steps, i) {
      var j :| 0 <= j < i && Pauses(trace[j], steps[j]) && NoResume(steps, j + 1, i);
      assert NoResume(steps, j + 1, i + 1);
    }
    if Pauses(trace[i], steps[i]) {
      PauseIsNoResume(trace[i], steps[i]);
      assert NoResume(steps, i + 1, i + 1);
    }
  }

  lemma PauseIsNoResume(e: Engine, step: Step)
    ensures Pauses(e, step) ==> !step.Resume?
  {
  }

  lemma AbandonedSinceStep(steps: seq<Step>, i: nat)
    requires i < |steps|
    ensures AbandonedSince(steps, i + 1) <==> !steps[i].Resume? && (AbandonedSince(steps, i) || steps[i].Abandon?)
  {
    if AbandonedSince(steps, i + 1) {
      var j :| 0 <= j < i + 1 && steps[j].Abandon? && NoResume(steps, j + 1, i + 1);
      assert j == i || NoResume(steps, j + 1, i);
    }
    if !steps[i].Resume? && AbandonedSince(steps, i) {
      var j :| 0 <= j < i && steps[j].Abandon? && NoResume(steps, j + 1, i);
      assert NoResume(steps, j + 1, i + 1);
    }
    if steps[i].Abandon? { assert NoResume(steps, i + 1, i + 1); }
  }

  /** In every state of every run the flags say what has happened. */
  lemma {:induction false} FlagsTell(g: Graph, s: State, trace: seq<Engine>, steps: seq<Step>, i: nat)
    requires Wf(g) && IsRun(g, trace, steps) && trace[0] == Started(g, s) && i < |trace|
    ensures trace[i].flags.paused <==> PausedSince(trace, steps, i)
    ensures trace[i].flags.aborted <==> HasAborted(steps, i)
    ensures trace[i].flags.error <==> HasAborted(steps, i) || HasFailed(g, trace, steps, i)
    ensures trace[i].abandoned <==> AbandonedSince(steps, i)
  {
    hide Next, Pauses, Fails, PausedSince, AbandonedSince;
    if i == 0 {
      NothingYet(trace, steps);
    } else {
      FlagsTell(g, s, trace, steps, i - 1);
      StepFlags(g, trace[i - 1], steps[i - 1], trace[i]);
      PausedSinceStep(trace, steps, i - 1);
      AbandonedSinceStep(steps, i - 1);
    }
  }

  lemma NothingYet(trace: seq<Engine>, steps: seq<Step>)
    requires |steps| < |trace|
    ensures !PausedSince(trace, steps, 0) && !AbandonedSince(steps, 0)
  {
  }

  /** What the terminal event of a run says: that it is paused, if a pause has not been resumed; else
      that it was aborted, if it ever was; else that it failed, if something failed it; and that it
      succeeded only if none of these has happened. A generator that was closed says nothing. */
  lemma TerminalEventTells(g: Graph, s: State, trace: seq<Engine>, steps: seq<Step>, i: nat)
    requires Wf(g) && IsRun(g, trace, steps) && trace[0] == Started(g, s) && i < |trace|
    ensures TerminalEvent(trace[i]) == None <==> AbandonedSince(steps, i)
    ensures TerminalEvent(trace[i]) == Some(RunPaused) <==>
      !AbandonedSince(steps, i) && PausedSince(trace, steps, i)
    ensures TerminalEvent(trace[i]) == Some(RunAborted) <==>
      !AbandonedSince(steps, i) && !PausedSince(trace, steps, i) && HasAborted(steps, i)
    ensures TerminalEvent(trace[i]) == Some(RunFailed) <==>
      !AbandonedSince(steps, i) && !PausedSince(trace, steps, i) && !HasAborted(steps, i)
      && HasFailed(g, trace, steps, i)
    ensures TerminalEvent(trace[i]) == Some(RunSucceeded) <==>
      !AbandonedSince(steps, i) && !PausedSince(trace, steps, i) && !HasAborted(steps, i)
      && !HasFailed(g, trace, steps, i)
  {
    hide PausedSince, AbandonedSince, HasAborted, HasFailed, IsRun;
    FlagsTell(g, s, trace, steps, i);
  }

  // ---------- the ready queue ----------

  /** The nodes that workers have dequeued before state `i`, in order. */
  ghost function Dequeued(trace: seq<Engine>, steps: seq<Step>, i: nat): seq<NodeId>
    requires i <= |steps| < |trace|
  {
    if i == 0 then []
    else
      var q := trace[i - 1].core.s.queue;
      Dequeued(trace, steps, i - 1) + if steps[i - 1].TakeNode? && q != [] then [q[0]] else []
  }

  /** The nodes that have been queued before state `i`, in order. */
  ghost function EverQueued(trace: seq<Engine>, steps: seq<Step>, i: nat): seq<NodeId>
    requires i <= |steps| < |trace|
  {
    if i == 0 then trace[0].core.s.queue
    else
      var queued := Queued(trace[i - 1].core.s, trace[i].core.s);
      EverQueued(trace, steps, i - 1) + if steps[i - 1].TakeNode? then [] else queued
  }

  lemma StepQueues(g: Graph, inactive: set<NodeId>, e: Engine, step: Step, r: Engine)
    requires Wf(g) && Promoted(g) && Inv(g, inactive, e) && Next(g, e, step, r)
    ensures step.TakeNode? ==> e.core.s.queue != [] && e.core.s.queue == [e.core.s.queue[0]] + r.core.s.queue
    ensures !step.TakeNode? ==> r.core.s.queue == e.core.s.queue + Queued(e.core.s, r.core.s)
  {
    hide CoreOk, HandleEvent, Pending, Resumed, ChunkOk, MayStop;
    match step
    case Dispatch =>
      if !Midway(e.events[0]) {
        LedgerOnce(e, e.events[0].node);
        assert Terminals(e.events) == multiset{e.events[0].node} + Terminals(e.events[1..]);
        HandleKeepsCore(g, inactive, e.core, e.flags, e.events[0]);
      } else {
        ChunkChangesNothing(g, e, r);
      }
    case Resume(p, d) =>
      ResumeSchedulesParked(g, inactive, e, p, d, r);
      CompletionIsSound(g, inactive, e);
    case _ =>
  }

  /** Nodes are dequeued in the order in which they were queued: what was dequeued, followed by what
      waits, is what was queued. */
  lemma {:induction false} QueueIsFifo(g: Graph, inactive: set<NodeId>, trace: seq<Engine>, steps: seq<Step>, i: nat)
    requires Wf(g) && Promoted(g) && IsRun(g, trace, steps) && Inv(g, inactive, trace[0]) && i < |trace|
    ensures Dequeued(trace, steps, i) + trace[i].core.s.queue == EverQueued(trace, steps, i)
  {
    hide Next, Inv, Queued;
    if i > 0 {
      QueueIsFifo(g, inactive, trace, steps, i - 1);
      RunKeepsInv(g, inactive, trace, steps, i - 1);
      StepQueues(g, inactive, trace[i - 1], steps[i - 1], trace[i]);
    }
  }
}
