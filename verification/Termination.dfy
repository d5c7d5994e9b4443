/** Runs are finite: retries are bounded, and every step that dequeues, ends or handles a node
    attempt uses up some of a total that only resumption renews. */
module Termination {
  import opened Graphs
  import opened Traversal
  import opened Completion
  import opened Marking
  import opened Scheduler
  import opened Runs

  /** The node will not be attempted again before a resumption. */
  ghost predicate Settled(c: Core, n: NodeId) {
    n in c.finished || n in c.failed || n in c.paused || n in c.deferred || n in c.crashed
  }

  /** Attempts that are left, counting the one under way. */
  ghost function AttemptsLeft(g: Graph, c: Core, n: NodeId): nat {
    if Settled(c, n) || RetryCount(c, n) > Budget(g, n) then 0 else 1 + Budget(g, n) - RetryCount(c, n)
  }

  /** 0 before a worker has the node, 1 while it does, 2 when the outcome waits to be handled. */
  ghost function Stage(e: Engine, n: NodeId): nat {
    if n in e.held then 1 else if n in Terminals(e.events) then 2 else 0
  }

  /** Steps of the node's attempts that are left. */
  ghost function Weight(g: Graph, e: Engine, n: NodeId): int {
    if AttemptsLeft(g, e.core, n) == 0 then 0 else 3 * AttemptsLeft(g, e.core, n) - Stage(e, n)
  }

  ghost function Total(g: Graph, e: Engine, order: seq<NodeId>): int
    decreases |order|
  {
    if order == [] then 0 else Weight(g, e, order[0]) + Total(g, e, order[1..])
  }

  /** Steps that move an attempt on; chunks and commands do not. */
  predicate IsWork(e: Engine, step: Step) {
    match step
    case TakeNode => true
    case Emit(ev) => !Midway(ev)
    case Dispatch => e.events != [] && !Midway(e.events[0])
    case _ => false
  }

  /** The node that a working step is about. */
  function Worked(e: Engine, step: Step): NodeId
    requires IsWork(e, step) && (step.TakeNode? ==> e.core.s.queue != [])
  {
    match step
    case TakeNode => e.core.s.queue[0]
    case Emit(ev) => ev.node
    case Dispatch => e.events[0].node
  }

  lemma {:induction false} TotalMonotone(g: Graph, e: Engine, r: Engine, order: seq<NodeId>, n: NodeId)
    requires forall k :: Weight(g, r, k) <= Weight(g, e, k)
    ensures Total(g, r, order) <= Total(g, e, order)
    ensures n in order && Weight(g, r, n) < Weight(g, e, n) ==> Total(g, r, order) < Total(g, e, order)
    decreases |order|
  {
    if order != [] {
      TotalMonotone(g, e, r, order[1..], n);
    }
  }

  /** What handling a terminal event does to attempts: the node of the event uses one up, and
      no other node gains any. */
  lemma HandlingUsesAttempt(g: Graph, inactive: set<NodeId>, c: Core, f: Flags, ev: Event)
    requires Wf(g) && CoreOk(g, inactive, c) && !Midway(ev) && ev.node in c.s.executing && ev.node !in c.crashed
    requires Pending(g, c.s.edge, ev.node, Out(g, ev.node))
    ensures var r := HandleEvent(g, c, f, ev).0;
      && AttemptsLeft(g, r, ev.node) < AttemptsLeft(g, c, ev.node)
      && forall k :: k != ev.node ==> AttemptsLeft(g, r, k) == AttemptsLeft(g, c, k) || AttemptsLeft(g, r, k) == 0
  {
    var n := ev.node;
    var r := HandleEvent(g, c, f, ev).0;
    HandlingSettles(g, c, f, ev);
    assert Retried(g, c, n) && !Settled(c, n) by { hide MarksOk; }
    hide CoreOk, Pending, HandleEvent, Settled;
  }

  /** Either the node has been put somewhere for good, or its retry count has grown. */
  lemma HandlingSettles(g: Graph, c: Core, f: Flags, ev: Event)
    requires Wf(g) && !Midway(ev) && Pending(g, c.s.edge, ev.node, Out(g, ev.node))
    ensures var r := HandleEvent(g, c, f, ev).0;
      && (forall k :: k != ev.node && Settled(c, k) ==> Settled(r, k))
      && (forall k :: k != ev.node ==> RetryCount(r, k) == RetryCount(c, k))
      && (Settled(r, ev.node) || RetryCount(r, ev.node) == RetryCount(c, ev.node) + 1)
  {
    hide Pending, HandleBranchCompletion, ProcessNodeSuccess, ScheduleAll, Wf;
  }

  /** Every working step of a segment decreases the weight of its node and raises none. */
  lemma WorkWeighs(g: Graph, inactive: set<NodeId>, e: Engine, step: Step, r: Engine)
    requires Wf(g) && Inv(g, inactive, e) && Next(g, e, step, r) && IsWork(e, step)
    ensures Weight(g, r, Worked(e, step)) < Weight(g, e, Worked(e, step))
    ensures forall k :: Weight(g, r, k) <= Weight(g, e, k)
    ensures Worked(e, step) in g.nodes
  {
    WorkedHasAttempts(g, inactive, e, step);
    hide CoreOk, HandleEvent, Weight, AttemptsLeft, Ledger, Pending, Wf, MayStop, Resumed;
    ActiveAreNodes(g, inactive, e.core);
    match step
    case TakeNode =>
      TakeWeighs(g, e, r);
    case Emit(ev) =>
      EmitWeighs(g, e, ev, r);
    case Dispatch =>
      HandlingUsesAttempt(g, inactive, e.core, e.flags, e.events[0]);
      DispatchWeighs(g, e, r);
  }

  lemma ActiveAreNodes(g: Graph, inactive: set<NodeId>, c: Core)
    requires CoreOk(g, inactive, c)
    ensures c.s.executing <= g.nodes.Keys && Exclusive(c)
  {
  }

  lemma TakeWeighs(g: Graph, e: Engine, r: Engine)
    requires Wf(g) && Next(g, e, TakeNode, r) && Ledger(e)
    requires AttemptsLeft(g, e.core, e.core.s.queue[0]) > 0
    ensures forall k :: Weight(g, r, k) == Weight(g, e, k) - if k == e.core.s.queue[0] then 1 else 0
  {
    var n := e.core.s.queue[0];
    LedgerOnce(e, n);
    assert multiset(e.core.s.queue)[n] >= 1;
    forall k ensures AttemptsLeft(g, r.core, k) == AttemptsLeft(g, e.core, k) { TakeKeepsAttempts(g, e, r, k); }
  }

  lemma TakeKeepsAttempts(g: Graph, e: Engine, r: Engine, n: NodeId)
    requires Wf(g) && Next(g, e, TakeNode, r)
    ensures AttemptsLeft(g, r.core, n) == AttemptsLeft(g, e.core, n)
  {
    assert Settled(r.core, n) == Settled(e.core, n) && RetryCount(r.core, n) == RetryCount(e.core, n);
  }

  lemma EmitWeighs(g: Graph, e: Engine, ev: Event, r: Engine)
    requires Ledger(e) && !Midway(ev) && ev.node in e.held && AttemptsLeft(g, e.core, ev.node) > 0
    requires r == e.(events := e.events + [ev], held := e.held - {ev.node})
    ensures forall k :: Weight(g, r, k) == Weight(g, e, k) - if k == ev.node then 1 else 0
  {
    LedgerOnce(e, ev.node);
    TerminalsSnoc(e.events, ev);
    hide Ledger, AttemptsLeft, Terminals;
    assert forall k :: k != ev.node ==> Stage(r, k) == Stage(e, k);
  }

  lemma DispatchWeighs(g: Graph, e: Engine, r: Engine)
    requires Ledger(e) && e.events != [] && !Midway(e.events[0]) && r.events == e.events[1..] && r.held == e.held
    requires AttemptsLeft(g, r.core, e.events[0].node) < AttemptsLeft(g, e.core, e.events[0].node)
    requires forall k :: k != e.events[0].node ==>
      AttemptsLeft(g, r.core, k) == AttemptsLeft(g, e.core, k) || AttemptsLeft(g, r.core, k) == 0
    ensures Weight(g, r, e.events[0].node) < Weight(g, e, e.events[0].node)
    ensures forall k :: Weight(g, r, k) <= Weight(g, e, k)
  {
    var n := e.events[0].node;
    LedgerOnce(e, n);
    assert Terminals(e.events) == multiset{n} + Terminals(r.events);
    forall k | k != n ensures Weight(g, r, k) <= Weight(g, e, k) {
      assert Stage(r, k) == Stage(e, k);
    }
  }

  /** Steps other than work and resumption change no weight. */
  lemma IdleStepsWeighNothing(g: Graph, e: Engine, step: Step, r: Engine)
    requires Wf(g) && Next(g, e, step, r) && !IsWork(e, step) && !step.Resume?
    ensures forall k :: Weight(g, r, k) == Weight(g, e, k)
  {
    hide Pending;
    assert r.core == e.core && r.held == e.held;
    assert Terminals(r.events) == Terminals(e.events) by {
      match step
      case Emit(ev) => TerminalsSnoc(e.events, ev);
      case _ =>
    }
    forall k ensures Stage(r, k) == Stage(e, k) {
    }
  }

  /** The number of working steps among the first `k` steps. */
  ghost function WorkSteps(trace: seq<Engine>, steps: seq<Step>, k: nat): nat
    requires k <= |steps| <= |trace|
  {
    if k == 0 then 0 else WorkSteps(trace, steps, k - 1) + if IsWork(trace[k - 1], steps[k - 1]) then 1 else 0
  }

  /** A run segment, from its start or a resumption on, makes at most as many working steps as
      its first state weighs. */
  lemma {:induction false} SegmentIsFinite(g: Graph, inactive: set<NodeId>, order: seq<NodeId>, trace: seq<Engine>,
      steps: seq<Step>, k: nat)
    requires Wf(g) && Promoted(g) && IsRun(g, trace, steps) && Inv(g, inactive, trace[0])
    requires forall i :: 0 <= i < |steps| ==> !steps[i].Resume?
    requires Elems(order) == g.nodes.Keys && k <= |steps|
    ensures WorkSteps(trace, steps, k) + Total(g, trace[k], order) <= Total(g, trace[0], order)
  {
    hide Inv, Next;
    if k > 0 {
      SegmentIsFinite(g, inactive, order, trace, steps, k - 1);
      RunKeepsInv(g, inactive, trace, steps, k - 1);
      StepIsWeighed(g, inactive, order, trace[k - 1], steps[k - 1], trace[k]);
    }
  }

  lemma StepIsWeighed(g: Graph, inactive: set<NodeId>, order: seq<NodeId>, e: Engine, step: Step, r: Engine)
    requires Wf(g) && Inv(g, inactive, e) && Next(g, e, step, r) && !step.Resume? && Elems(order) == g.nodes.Keys
    ensures Total(g, r, order) + (if IsWork(e, step) then 1 else 0) <= Total(g, e, order)
  {
    hide Inv, CoreOk;
    if IsWork(e, step) {
      WorkWeighs(g, inactive, e, step, r);
      assert Worked(e, step) in Elems(order);
      TotalMonotone(g, e, r, order, Worked(e, step));
    } else {
      IdleStepsWeighNothing(g, e, step, r);
      TotalMonotone(g, e, r, order, g.root);
    }
  }

  lemma {:induction false} TotalIsBounded(g: Graph, inactive: set<NodeId>, e: Engine, order: seq<NodeId>)
    ensures 0 <= Total(g, e, order) <= 3 * TotalBudget(g, order)
    decreases |order|
  {
    if order != [] { TotalIsBounded(g, inactive, e, order[1..]); }
  }

  /** The attempts that the configuration grants, over all nodes. */
  function TotalBudget(g: Graph, order: seq<NodeId>): nat
    decreases |order|
  {
    if order == [] then 0 else 1 + Budget(g, order[0]) + TotalBudget(g, order[1..])
  }

  /** Hence a segment makes at most three working steps per attempt granted. */
  lemma SegmentLength(g: Graph, inactive: set<NodeId>, order: seq<NodeId>, trace: seq<Engine>, steps: seq<Step>)
    requires Wf(g) && Promoted(g) && IsRun(g, trace, steps) && Inv(g, inactive, trace[0])
    requires forall i :: 0 <= i < |steps| ==> !steps[i].Resume?
    requires Elems(order) == g.nodes.Keys
    ensures WorkSteps(trace, steps, |steps|) <= 3 * TotalBudget(g, order)
  {
    SegmentIsFinite(g, inactive, order, trace, steps, |steps|);
    TotalIsBounded(g, inactive, trace[0], order);
    TotalIsBounded(g, inactive, trace[|steps|], order);
  }

  /** Attempts of the node that no worker has begun. */
  ghost function Unbegun(g: Graph, e: Engine, n: NodeId): int {
    if AttemptsLeft(g, e.core, n) == 0 then 0 else AttemptsLeft(g, e.core, n) - if Stage(e, n) > 0 then 1 else 0
  }

  predicate Begins(e: Engine, step: Step, n: NodeId) {
    step.TakeNode? && e.core.s.queue != [] && e.core.s.queue[0] == n
  }

  lemma BeginningIsCounted(g: Graph, inactive: set<NodeId>, e: Engine, step: Step, r: Engine, n: NodeId)
    requires Wf(g) && Inv(g, inactive, e) && Next(g, e, step, r) && !step.Resume?
    ensures Unbegun(g, r, n) + (if Begins(e, step, n) then 1 else 0) <= Unbegun(g, e, n)
  {
    hide CoreOk, Pending;
    if !IsWork(e, step) {
      IdleStepsKeepStage(g, e, step, r, n);
    } else {
      hide Inv;
      WorkMovesStage(g, inactive, e, step, r, n);
    }
  }

  lemma IdleStepsKeepStage(g: Graph, e: Engine, step: Step, r: Engine, n: NodeId)
    requires Wf(g) && Next(g, e, step, r) && !IsWork(e, step) && !step.Resume?
    ensures Stage(r, n) == Stage(e, n) && AttemptsLeft(g, r.core, n) == AttemptsLeft(g, e.core, n)
  {
    IdleStepsKeepCore(g, e, step, r);
    hide *;
    IdleStepsKeepTerminals(g, e, step, r);
    SameStage(g, e, r, n);
  }

  lemma SameStage(g: Graph, e: Engine, r: Engine, n: NodeId)
    requires r.core == e.core && r.held == e.held && Terminals(r.events) == Terminals(e.events)
    ensures Stage(r, n) == Stage(e, n) && AttemptsLeft(g, r.core, n) == AttemptsLeft(g, e.core, n)
  {
  }

  lemma IdleStepsKeepCore(g: Graph, e: Engine, step: Step, r: Engine)
    requires Wf(g) && Next(g, e, step, r) && !IsWork(e, step) && !step.Resume?
    ensures r.core == e.core && r.held == e.held
  {
    hide Pending, Wf;
    match step
    case Dispatch => assert HandleEvent(g, e.core, e.flags, e.events[0]) == (e.core, e.flags);
    case _ =>
      hide HandleEvent;
  }

  /** A report that ends no attempt comes or goes, or the list stays as it is. */
  lemma IdleStepsKeepTerminals(g: Graph, e: Engine, step: Step, r: Engine)
    requires Wf(g) && Next(g, e, step, r) && !IsWork(e, step) && !step.Resume?
    ensures Terminals(r.events) == Terminals(e.events)
  {
    hide Pending, Wf, HandleEvent;
    match step
    case Emit(ev) => TerminalsSnoc(e.events, ev);
    case _ =>
  }

  lemma WorkMovesStage(g: Graph, inactive: set<NodeId>, e: Engine, step: Step, r: Engine, n: NodeId)
    requires Wf(g) && Inv(g, inactive, e) && Next(g, e, step, r) && IsWork(e, step)
    ensures Unbegun(g, r, n) + (if Begins(e, step, n) then 1 else 0) <= Unbegun(g, e, n)
  {
    WorkedHasAttempts(g, inactive, e, step);
    hide CoreOk, Pending, Wf, HandleEvent, AttemptsLeft, Stage, Ledger, MayStop, Resumed;
    match step
    case TakeNode =>
      TakeMovesStage(e, r, n);
      TakeKeepsAttempts(g, e, r, n);
    case Emit(ev) => EmitMovesStage(e, ev, r, n);
    case Dispatch =>
      DispatchMovesStage(e, r, n);
      HandlingUsesAttempt(g, inactive, e.core, e.flags, e.events[0]);
  }

  lemma TakeMovesStage(e: Engine, r: Engine, n: NodeId)
    requires Ledger(e) && e.core.s.queue != [] && r.held == e.held + {e.core.s.queue[0]} && r.events == e.events
    ensures if n == e.core.s.queue[0] then Stage(e, n) == 0 && Stage(r, n) == 1 else Stage(r, n) == Stage(e, n)
  {
    LedgerOnce(e, n);
    assert multiset(e.core.s.queue)[e.core.s.queue[0]] >= 1;
  }

  lemma EmitMovesStage(e: Engine, ev: Event, r: Engine, n: NodeId)
    requires !Midway(ev) && ev.node in e.held && r.events == e.events + [ev] && r.held == e.held - {ev.node}
    ensures if n == ev.node then Stage(e, n) == 1 && Stage(r, n) == 2 else Stage(r, n) == Stage(e, n)
  {
    TerminalsSnoc(e.events, ev);
  }

  lemma DispatchMovesStage(e: Engine, r: Engine, n: NodeId)
    requires Ledger(e) && e.events != [] && !Midway(e.events[0]) && r.events == e.events[1..] && r.held == e.held
    ensures if n == e.events[0].node then Stage(e, n) == 2 && Stage(r, n) == 0 else Stage(r, n) == Stage(e, n)
  {
    LedgerOnce(e, n);
    assert Terminals(e.events) == multiset{e.events[0].node} + Terminals(r.events);
  }

  lemma WorkedHasAttempts(g: Graph, inactive: set<NodeId>, e: Engine, step: Step)
    requires Wf(g) && Inv(g, inactive, e) && IsWork(e, step)
    requires match step case TakeNode => e.core.s.queue != [] case Emit(ev) => ev.node in e.held case _ => true
    ensures Worked(e, step) in e.core.s.executing && Worked(e, step) !in e.core.crashed
    ensures AttemptsLeft(g, e.core, Worked(e, step)) > 0
  {
    var n := Worked(e, step);
    LedgerOnce(e, n);
    assert step.TakeNode? ==> multiset(e.core.s.queue)[n] >= 1;
    assert step.Dispatch? ==> Terminals(e.events) == multiset{n} + Terminals(e.events[1..]);
    assert Retried(g, e.core, n);
    ActiveAreNodes(g, inactive, e.core);
  }

  /** How often a worker begins to execute `n` within the first `k` steps. */
  ghost function Attempts(trace: seq<Engine>, steps: seq<Step>, n: NodeId, k: nat): nat
    requires k <= |steps| <= |trace|
  {
    if k == 0 then 0 else Attempts(trace, steps, n, k - 1) + if Begins(trace[k - 1], steps[k - 1], n) then 1 else 0
  }

  /** Within a segment a node is attempted at most once more than its retry budget. */
  lemma {:induction false} AttemptsAreBounded(g: Graph, inactive: set<NodeId>, trace: seq<Engine>, steps: seq<Step>,
      n: NodeId, k: nat)
    requires Wf(g) && Promoted(g) && IsRun(g, trace, steps) && Inv(g, inactive, trace[0])
    requires forall i :: 0 <= i < |steps| ==> !steps[i].Resume?
    requires k <= |steps|
    ensures Attempts(trace, steps, n, k) + Unbegun(g, trace[k], n) <= Unbegun(g, trace[0], n) <= 1 + Budget(g, n)
    ensures n in g.nodes && g.nodes[n].retry && g.nodes[n].maxRetries > 0 ==>
      Attempts(trace, steps, n, k) <= 1 + g.nodes[n].maxRetries
    ensures n in g.nodes && !(g.nodes[n].retry && g.nodes[n].maxRetries > 0) ==> Attempts(trace, steps, n, k) <= 1
  {
    hide Inv, Next;
    if k > 0 {
      AttemptsAreBounded(g, inactive, trace, steps, n, k - 1);
      RunKeepsInv(g, inactive, trace, steps, k - 1);
      BeginningIsCounted(g, inactive, trace[k - 1], steps[k - 1], trace[k], n);
    }
  }
}
