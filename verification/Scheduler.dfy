/** The event-driven scheduler: the handlers that the dispatcher runs on node events
    (event_handlers.py, error_handler.py), the steps of workers, commands and resumption
    around them, and the invariant of every run. */
module Scheduler {
  import opened Graphs
  import opened Traversal
  import opened Completion
  import opened Marking
  import opened Templates
  import opened VariablePool

  /** What a node attempt sends to the dispatcher. The last three end the attempt. `Collected` are
      the events that a handler only passes on: start events, those of nodes inside loops and
      iterations, and other notices. */
  datatype Event =
    | Chunk(node: NodeId, selector: Selector, text: string, isFinal: bool)
    | Updated(node: NodeId, selector: Selector, value: Value)
    | Collected(node: NodeId)
    | Succeeded(node: NodeId, handle: string, outputs: map<string, Value>)
    | Failed(node: NodeId)
    | PauseRequested(node: NodeId)

  /** The attempt goes on after the event. */
  predicate Midway(ev: Event) { ev.Chunk? || ev.Updated? || ev.Collected? }

  /** What `handle_node_failure` answers: a retry event, an exception event, or nothing. */
  datatype Reaction = Retry | Exception | Fatal

  /** Lifecycle flags of `GraphExecution`. */
  datatype Flags = Flags(paused: bool, aborted: bool, error: bool, completed: bool)

  /** Everything that handlers update. `finished` (with the handle each node finished with),
      `failed`, `crashed` and `taken` (the edges in the order they were taken) are history;
      `paused` and `deferred` are the parked nodes of the suspension state. */
  datatype Core = Core(
    s: State,
    finished: map<NodeId, string>,
    failed: set<NodeId>,
    crashed: set<NodeId>,
    paused: set<NodeId>,
    deferred: set<NodeId>,
    retries: map<NodeId, nat>,
    taken: seq<EdgeId>)

  function RetryCount(c: Core, n: NodeId): nat { if n in c.retries then c.retries[n] else 0 }

  // ---------- handlers ----------

  function HandleNodeFailure(g: Graph, n: NodeId, retryCount: nat): Reaction {
    if Retries(g, n) && retryCount < MaxRetries(g, n) then Retry
    else if Strategy(g, n) == Abort then Fatal
    else Exception
  }

  /** The edges that the node takes, in order. */
  function TakenList(g: Graph, n: NodeId, handle: string): seq<EdgeId> {
    if IsBranch(g, n) then Selected(g, n, handle) else Out(g, n)
  }

  /** A completion whose edges have been processed: ready nodes are deferred or scheduled, and
      the node stops executing. */
  function Complete(g: Graph, c: Core, n: NodeId, handle: string, o: Outcome, defer: bool): Core
    requires o.Done?
  {
    var s1 := if defer then o.state else ScheduleAll(o.state, o.ready);
    c.(s := s1.(executing := s1.executing - {n}),
       finished := c.finished[n := handle],
       deferred := if defer then c.deferred + Elems(o.ready) else c.deferred,
       taken := c.taken + TakenList(g, n, handle))
  }

  /** A handler that raises: `mark_failed` records the error, the node stays executing. */
  function Crash(c: Core, f: Flags, n: NodeId): (Core, Flags) {
    (c.(crashed := c.crashed + {n}), f.(error := true, completed := true))
  }

  function OnSucceeded(g: Graph, c: Core, f: Flags, n: NodeId, handle: string): (Core, Flags)
    requires Wf(g) && Pending(g, c.s.edge, n, Out(g, n))
  {
    var h := if IsBranch(g, n) then handle else "";
    var o := if IsBranch(g, n) then HandleBranchCompletion(g, c.s, n, h) else ProcessNodeSuccess(g, c.s, n, h);
    if o.Raised? then Crash(c, f, n) else (Complete(g, c, n, h, o, f.paused), f)
  }

  /** The exception handler schedules ready nodes even while paused. */
  function OnException(g: Graph, c: Core, f: Flags, n: NodeId): (Core, Flags)
    requires Wf(g) && Pending(g, c.s.edge, n, Out(g, n))
  {
    var handle := if Strategy(g, n) == FailBranch then "fail-branch" else "";
    var o := if Strategy(g, n) == FailBranch then HandleBranchCompletion(g, c.s, n, handle)
      else ProcessNodeSuccess(g, c.s, n, handle);
    if o.Raised? then Crash(c, f, n) else (Complete(g, c, n, handle, o, false), f)
  }

  function OnRetry(c: Core, n: NodeId): Core {
    var s1 := c.s.(executing := c.s.executing - {n});
    c.(retries := c.retries[n := RetryCount(c, n) + 1], s := Schedule(s1, n))
  }

  function OnFailed(g: Graph, c: Core, f: Flags, n: NodeId): (Core, Flags)
    requires Wf(g) && Pending(g, c.s.edge, n, Out(g, n))
  {
    match HandleNodeFailure(g, n, RetryCount(c, n))
    case Retry => (OnRetry(c, n), f)
    case Exception => OnException(g, c, f, n)
    case Fatal =>
      (c.(s := c.s.(executing := c.s.executing - {n}), failed := c.failed + {n}), f.(error := true, completed := true))
  }

  /** `pause` raises once the execution has completed or was aborted. */
  function OnPauseRequested(c: Core, f: Flags, n: NodeId): (Core, Flags) {
    if f.completed || f.aborted then Crash(c, f, n)
    else
      var s1 := c.s.(executing := c.s.executing - {n}, node := c.s.node[n := Unknown]);
      (c.(s := s1, paused := c.paused + {n}), f.(paused := true))
  }

  function HandleEvent(g: Graph, c: Core, f: Flags, ev: Event): (Core, Flags)
    requires Wf(g) && (Midway(ev) || Pending(g, c.s.edge, ev.node, Out(g, ev.node)))
  {
    match ev
    case Chunk(_, _, _, _) => (c, f)
    case Updated(_, _, _) => (c, f)
    case Collected(_) => (c, f)
    case Succeeded(n, handle, _) => OnSucceeded(g, c, f, n, handle)
    case Failed(n) => OnFailed(g, c, f, n)
    case PauseRequested(n) => OnPauseRequested(c, f, n)
  }

  // ---------- the invariant of the core ----------

  ghost function Active(c: Core): set<NodeId> {
    c.s.executing + c.finished.Keys + c.failed + c.paused + c.deferred
  }

  ghost function On(c: Core): set<NodeId> {
    c.s.executing + c.finished.Keys + c.failed
  }

  /** A scheduled node is in exactly one place. */
  ghost predicate Exclusive(c: Core) {
    c.s.executing !! c.finished.Keys !! c.failed !! c.paused !! c.deferred
  }

  ghost predicate Retried(g: Graph, c: Core, n: NodeId) {
    RetryCount(c, n) <= Budget(g, n)
  }

  /** Attempts that the retry configuration adds to the first one. */
  function Budget(g: Graph, n: NodeId): nat {
    if Retries(g, n) && MaxRetries(g, n) > 0 then MaxRetries(g, n) else 0
  }

  ghost predicate CoreOk(g: Graph, inactive: set<NodeId>, c: Core) {
    && MarksOk(g, inactive, c.s, c.finished, Active(c), On(c))
    && Exclusive(c)
    && c.crashed <= c.s.executing
    && (forall n :: Retried(g, c, n))
    && (forall d :: d in g.edges ==> (d in Elems(c.taken) <==> EdgeMark(c.s.edge, d) == Taken))
  }

  /** What a handled event does to the ledger of executing nodes: `n` leaves it (or joins the
      crashed ones) and exactly the newly queued nodes enter. */
  ghost predicate Balanced(c: Core, r: Core, n: NodeId) {
    && r.s.queue == c.s.queue + Queued(c.s, r.s)
    && multiset(r.s.executing) + multiset(c.crashed) + multiset{n}
         == multiset(c.s.executing) + multiset(r.crashed) + multiset(Queued(c.s, r.s))
  }

  /** Nodes that are executing and have not crashed are ready to be completed. */
  lemma ExecutingIsPending(g: Graph, inactive: set<NodeId>, c: Core, n: NodeId)
    requires Wf(g) && CoreOk(g, inactive, c) && n in c.s.executing
    ensures Pending(g, c.s.edge, n, Out(g, n))
  {
    UnfinishedIsPending(g, inactive, c.s, c.finished, Active(c), On(c), n);
  }

  lemma SameMarks(g: Graph, inactive: set<NodeId>, s: State, r: State, finished: map<NodeId, string>,
      active: set<NodeId>, on: set<NodeId>)
    requires MarksOk(g, inactive, s, finished, active, on) && r.edge == s.edge && r.node == s.node
    ensures MarksOk(g, inactive, r, finished, active, on)
  {
    forall d | d in g.edges ensures EdgeOk(g, r, finished, d) {
      assert EdgeOk(g, s, finished, d);
    }
    forall n | n in g.nodes ensures SkipOk(g, r, inactive, n) && NodeOk(g, r, active, on, n) {
      assert SkipOk(g, s, inactive, n) && NodeOk(g, s, active, on, n);
    }
  }

  /** The executing set after `n` made room for the queued nodes. */
  lemma ExecutingLedger(executing: set<NodeId>, n: NodeId, queued: seq<NodeId>, parked: seq<NodeId>,
      released: set<NodeId>)
    requires n in executing && executing !! released
    requires multiset(queued) + multiset(parked) == multiset(released)
    ensures multiset(executing + Elems(queued) - {n}) + multiset{n} == multiset(executing) + multiset(queued)
  {
    ListsReleased(queued, parked, released);
    forall k ensures multiset(queued)[k] == multiset(Elems(queued))[k] {
      assert multiset(queued)[k] + multiset(parked)[k] == multiset(released)[k] <= 1;
      assert k in queued <==> multiset(queued)[k] > 0;
    }
    assert multiset(queued) == multiset(Elems(queued));
    assert multiset(executing + Elems(queued)) == multiset(executing) + multiset(Elems(queued));
    assert multiset(executing + Elems(queued) - {n}) + multiset{n} == multiset(executing + Elems(queued));
  }

  /** Where the released nodes go after a completion. */
  lemma CompletePlacesReleased(g: Graph, c: Core, n: NodeId, handle: string, o: Outcome, defer: bool, s1: State,
      released: set<NodeId>)
    requires o.Done? && s1 == if defer then o.state else ScheduleAll(o.state, o.ready)
    requires Exclusive(c) && n in c.s.executing && n !in c.crashed && c.crashed <= c.s.executing
    requires released !! Active(c)
    requires s1.queue == c.s.queue + Queued(c.s, s1) && s1.executing == c.s.executing + Elems(Queued(c.s, s1))
    requires multiset(Queued(c.s, s1)) + multiset(if defer then o.ready else []) == multiset(released)
    ensures var r := Complete(g, c, n, handle, o, defer);
      && Active(r) == Active(c) + released && On(r) == On(c) + Elems(Queued(c.s, s1))
      && Exclusive(r) && r.crashed <= r.s.executing && Balanced(c, r, n)
  {
    hide ScheduleAll;
    var r := Complete(g, c, n, handle, o, defer);
    var queued := Queued(c.s, s1);
    var parked: seq<NodeId> := if defer then o.ready else [];
    ReleasedIsSplit(queued, parked, released);
    NothingElems();
    CompleteBalances(g, c, n, handle, o, defer, s1, released);
    hide Elems;
    assert r.deferred == c.deferred + Elems(parked);
  }

  lemma NothingElems()
    ensures var none: seq<NodeId> := []; Elems(none) == {}
  {
  }

  lemma ReleasedIsSplit(queued: seq<NodeId>, parked: seq<NodeId>, released: set<NodeId>)
    requires multiset(queued) + multiset(parked) == multiset(released)
    ensures Elems(queued) + Elems(parked) == released && Elems(queued) !! Elems(parked)
  {
    ListsReleased(queued, parked, released);
  }

  lemma CompleteBalances(g: Graph, c: Core, n: NodeId, handle: string, o: Outcome, defer: bool, s1: State,
      released: set<NodeId>)
    requires o.Done? && s1 == if defer then o.state else ScheduleAll(o.state, o.ready)
    requires n in c.s.executing && released !! c.s.executing
    requires s1.queue == c.s.queue + Queued(c.s, s1) && s1.executing == c.s.executing + Elems(Queued(c.s, s1))
    requires multiset(Queued(c.s, s1)) + multiset(if defer then o.ready else []) == multiset(released)
    ensures Balanced(c, Complete(g, c, n, handle, o, defer), n)
  {
    var r := Complete(g, c, n, handle, o, defer);
    var queued := Queued(c.s, s1);
    ExecutingLedger(c.s.executing, n, queued, if defer then o.ready else [], released);
    AddBoth(multiset(r.s.executing), multiset{n}, multiset(c.s.executing), multiset(queued), multiset(c.crashed));
  }

  lemma AddBoth(a: multiset<NodeId>, b: multiset<NodeId>, c: multiset<NodeId>, d: multiset<NodeId>, x: multiset<NodeId>)
    requires a + b == c + d
    ensures a + x + b == c + x + d
  {
    assert a + x + b == (a + b) + x;
    assert c + x + d == (c + d) + x;
  }

  lemma CompleteKeepsCore(g: Graph, inactive: set<NodeId>, c: Core, n: NodeId, handle: string, o: Outcome, defer: bool)
    requires Wf(g) && CoreOk(g, inactive, c) && n in c.s.executing && n !in c.crashed
    requires o.Done? && Resolves(g, c.s, o.state, TakenBy(g, n, handle), SkippedBy(g, n, handle), o.ready)
    ensures CoreOk(g, inactive, Complete(g, c, n, handle, o, defer))
    ensures Balanced(c, Complete(g, c, n, handle, o, defer), n)
  {
    hide MarksOk, EdgesResolved, NodesResolved;
    var r := Complete(g, c, n, handle, o, defer);
    var s1 := if defer then o.state else ScheduleAll(o.state, o.ready);
    var parked: seq<NodeId> := if defer then o.ready else [];
    if !defer { ScheduleAllResolves(g, c.s, o.state, TakenBy(g, n, handle), SkippedBy(g, n, handle), o.ready); }
    assert Resolves(g, c.s, s1, TakenBy(g, n, handle), SkippedBy(g, n, handle), parked);
    CompletionKeepsMarks(g, inactive, c.s, c.finished, Active(c), On(c), n, handle, s1, parked);
    CompletePlacesReleased(g, c, n, handle, o, defer, s1, Released(g, c.s.edge, s1.edge));
    SameMarks(g, inactive, s1, r.s, r.finished, Active(r), On(r));
    ExecutingIsPending(g, inactive, c, n);
    CompleteTakes(g, c, n, handle, s1.edge, r.taken);
    assert forall k :: Retried(g, c, k) ==> Retried(g, r, k);
  }

  /** Exactly once: what edge resolution enqueues and defers is each node that becomes active, one
      time, whether the skipper or a taken edge released it; no active node is among them. */
  lemma CompleteSchedulesOnce(g: Graph, inactive: set<NodeId>, c: Core, n: NodeId, handle: string, o: Outcome,
      defer: bool)
    requires Wf(g) && CoreOk(g, inactive, c) && n in c.s.executing && n !in c.crashed
    requires o.Done? && Resolves(g, c.s, o.state, TakenBy(g, n, handle), SkippedBy(g, n, handle), o.ready)
    ensures var r := Complete(g, c, n, handle, o, defer);
      && Active(c) <= Active(r)
      && multiset(Queued(c.s, r.s)) + multiset(if defer then o.ready else []) == multiset(Active(r) - Active(c))
  {
    hide MarksOk, EdgesResolved, NodesResolved;
    var s1 := if defer then o.state else ScheduleAll(o.state, o.ready);
    var parked: seq<NodeId> := if defer then o.ready else [];
    if !defer { ScheduleAllResolves(g, c.s, o.state, TakenBy(g, n, handle), SkippedBy(g, n, handle), o.ready); }
    assert Resolves(g, c.s, s1, TakenBy(g, n, handle), SkippedBy(g, n, handle), parked);
    CompletionKeepsMarks(g, inactive, c.s, c.finished, Active(c), On(c), n, handle, s1, parked);
    var released := Released(g, c.s.edge, s1.edge);
    CompletePlacesReleased(g, c, n, handle, o, defer, s1, released);
    assert (Active(c) + released) - Active(c) == released;
  }

  lemma CompleteTakes(g: Graph, c: Core, n: NodeId, handle: string, m: Marks, taken: seq<EdgeId>)
    requires Wf(g) && Pending(g, c.s.edge, n, Out(g, n))
    requires forall d :: d in g.edges ==> (d in Elems(c.taken) <==> EdgeMark(c.s.edge, d) == Taken)
    requires EdgesResolved(g, c.s.edge, m, TakenBy(g, n, handle), SkippedBy(g, n, handle))
    requires taken == c.taken + TakenList(g, n, handle)
    ensures forall d :: d in g.edges ==> (d in Elems(taken) <==> EdgeMark(m, d) == Taken)
  {
    assert LinkedAt(g, n);
    if IsBranch(g, n) { CategoriesAreEdges(g, n, handle); }
    assert Elems(TakenList(g, n, handle)) == TakenBy(g, n, handle);
    assert Elems(taken) == Elems(c.taken) + TakenBy(g, n, handle);
    forall d | d in g.edges && Tail(g, d) == n ensures EdgeMark(c.s.edge, d) == Unknown {
      assert d in Out(g, n);
    }
  }

  lemma CrashKeepsCore(g: Graph, inactive: set<NodeId>, c: Core, f: Flags, n: NodeId)
    requires CoreOk(g, inactive, c) && n in c.s.executing && n !in c.crashed
    ensures CoreOk(g, inactive, Crash(c, f, n).0) && Balanced(c, Crash(c, f, n).0, n)
  {
    var r := Crash(c, f, n).0;
    assert multiset(r.crashed) == multiset(c.crashed) + multiset{n};
    assert Queued(c.s, r.s) == [];
    assert forall k :: Retried(g, c, k) ==> Retried(g, r, k);
    SameMarks(g, inactive, c.s, r.s, r.finished, Active(c), On(c));
    assert Active(r) == Active(c) && On(r) == On(c);
  }

  lemma RetryKeepsCore(g: Graph, inactive: set<NodeId>, c: Core, n: NodeId)
    requires Wf(g) && CoreOk(g, inactive, c) && n in c.s.executing && n !in c.crashed
    requires HandleNodeFailure(g, n, RetryCount(c, n)) == Retry
    ensures CoreOk(g, inactive, OnRetry(c, n)) && Balanced(c, OnRetry(c, n), n)
  {
    hide MarksOk;
    var r := OnRetry(c, n);
    assert r.s.executing == c.s.executing;
    assert Active(r) == Active(c) && On(r) == On(c);
    ActiveIsNotSkipped(g, inactive, c.s, c.finished, Active(c), On(c), n);
    OnlyNodeMark(g, inactive, c.s, r.s, n, Taken, c.finished, Active(c), On(c), On(c));
    forall k ensures Retried(g, r, k) { assert Retried(g, c, k); }
    assert Queued(c.s, r.s) == [n];
  }

  /** Re-marking a node that is active, TAKEN or UNKNOWN, concerns that node only. */
  lemma OnlyNodeMark(g: Graph, inactive: set<NodeId>, s: State, r: State, n: NodeId, m: Mark,
      finished: map<NodeId, string>,
                     active: set<NodeId>, on: set<NodeId>, now: set<NodeId>)
    requires MarksOk(g, inactive, s, finished, active, on) && n in active && NodeMark(s, n) != Skipped && m != Skipped
    requires r.edge == s.edge && r.node == s.node[n := m]
    requires now == if m == Taken then on + {n} else on - {n}
    requires n !in finished || m == Taken
    ensures MarksOk(g, inactive, r, finished, active, now)
  {
    forall d | d in g.edges ensures EdgeOk(g, r, finished, d) {
      assert EdgeOk(g, s, finished, d);
    }
    forall k | k in g.nodes ensures SkipOk(g, r, inactive, k) && NodeOk(g, r, active, now, k) {
      assert SkipOk(g, s, inactive, k) && NodeOk(g, s, active, on, k);
    }
  }

  /** `n` stops executing and nothing is queued. */
  lemma LeavingBalances(c: Core, r: Core, n: NodeId)
    requires n in c.s.executing && r.s.executing == c.s.executing - {n} && r.s.queue == c.s.queue
    requires r.crashed == c.crashed
    ensures Balanced(c, r, n)
  {
    assert Queued(c.s, r.s) == [];
    assert multiset(r.s.executing) + multiset{n} == multiset(c.s.executing) + multiset(Queued(c.s, r.s));
    AddBoth(multiset(r.s.executing), multiset{n}, multiset(c.s.executing), multiset(Queued(c.s, r.s)),
      multiset(c.crashed));
  }

  lemma FatalKeepsCore(g: Graph, inactive: set<NodeId>, c: Core, f: Flags, n: NodeId)
    requires Wf(g) && CoreOk(g, inactive, c) && n in c.s.executing && n !in c.crashed
    requires Pending(g, c.s.edge, n, Out(g, n))
    requires HandleNodeFailure(g, n, RetryCount(c, n)) == Fatal
    ensures CoreOk(g, inactive, OnFailed(g, c, f, n).0) && Balanced(c, OnFailed(g, c, f, n).0, n)
  {
    hide MarksOk;
    var r := OnFailed(g, c, f, n).0;
    assert Active(r) == Active(c) && On(r) == On(c);
    SameMarks(g, inactive, c.s, r.s, c.finished, Active(c), On(c));
    assert forall k :: Retried(g, c, k) ==> Retried(g, r, k);
    LeavingBalances(c, r, n);
  }

  lemma PauseKeepsCore(g: Graph, inactive: set<NodeId>, c: Core, f: Flags, n: NodeId)
    requires Wf(g) && CoreOk(g, inactive, c) && n in c.s.executing && n !in c.crashed && !f.completed && !f.aborted
    ensures CoreOk(g, inactive, OnPauseRequested(c, f, n).0) && Balanced(c, OnPauseRequested(c, f, n).0, n)
  {
    hide MarksOk;
    var r := OnPauseRequested(c, f, n).0;
    assert Active(r) == Active(c) && On(r) == On(c) - {n};
    ActiveIsNotSkipped(g, inactive, c.s, c.finished, Active(c), On(c), n);
    OnlyNodeMark(g, inactive, c.s, r.s, n, Unknown, c.finished, Active(c), On(c), On(r));
    assert forall k :: Retried(g, c, k) ==> Retried(g, r, k);
    LeavingBalances(c, r, n);
  }

  /** `_promote_fail_branch_nodes` has run: nodes with a fail branch are branch nodes. */
  ghost predicate Promoted(g: Graph) {
    forall n :: Strategy(g, n) == FailBranch ==> IsBranch(g, n)
  }

  lemma CompletionKeepsCore(g: Graph, inactive: set<NodeId>, c: Core, f: Flags, n: NodeId, handle: string, defer: bool)
    requires Wf(g) && CoreOk(g, inactive, c) && n in c.s.executing && n !in c.crashed
    requires Pending(g, c.s.edge, n, Out(g, n))
    ensures var o := if IsBranch(g, n) then HandleBranchCompletion(g, c.s, n, handle)
      else ProcessNodeSuccess(g, c.s, n, "");
      var h := if IsBranch(g, n) then handle else "";
      o.Done? ==> CoreOk(g, inactive, Complete(g, c, n, h, o, defer)) && Balanced(c, Complete(g, c, n, h, o, defer), n)
  {
    hide CoreOk, Pending, Resolves;
    if !IsBranch(g, n) || handle != "" {
      CompletionResolves(g, c.s, n, if IsBranch(g, n) then handle else "");
      var o := if IsBranch(g, n) then HandleBranchCompletion(g, c.s, n, handle) else ProcessNodeSuccess(g, c.s, n, "");
      CompleteKeepsCore(g, inactive, c, n, if IsBranch(g, n) then handle else "", o, defer);
    }
  }

  /** Every handler keeps the invariant of the core and the ledger of executing nodes. */
  lemma HandleKeepsCore(g: Graph, inactive: set<NodeId>, c: Core, f: Flags, ev: Event)
    requires Wf(g) && Promoted(g) && CoreOk(g, inactive, c) && !Midway(ev) && ev.node in c.s.executing
    requires ev.node !in c.crashed
    ensures Pending(g, c.s.edge, ev.node, Out(g, ev.node))
    ensures CoreOk(g, inactive, HandleEvent(g, c, f, ev).0) && Balanced(c, HandleEvent(g, c, f, ev).0, ev.node)
  {
    hide CoreOk, Pending, Balanced, Wf, Promoted, OnSucceeded, OnFailed, OnPauseRequested;
    ExecutingIsPending(g, inactive, c, ev.node);
    match ev
    case Succeeded(n, handle, _) => SuccessKeepsCore(g, inactive, c, f, n, handle);
    case Failed(n) => FailureKeepsCore(g, inactive, c, f, n);
    case PauseRequested(n) => PauseRequestKeepsCore(g, inactive, c, f, n);
  }

  lemma SuccessKeepsCore(g: Graph, inactive: set<NodeId>, c: Core, f: Flags, n: NodeId, handle: string)
    requires Wf(g) && CoreOk(g, inactive, c) && n in c.s.executing && n !in c.crashed
    requires Pending(g, c.s.edge, n, Out(g, n))
    ensures CoreOk(g, inactive, OnSucceeded(g, c, f, n, handle).0) && Balanced(c, OnSucceeded(g, c, f, n, handle).0, n)
  {
    hide CoreOk, Pending, Balanced;
    CompletionKeepsCore(g, inactive, c, f, n, handle, f.paused);
    CrashKeepsCore(g, inactive, c, f, n);
  }

  lemma PauseRequestKeepsCore(g: Graph, inactive: set<NodeId>, c: Core, f: Flags, n: NodeId)
    requires Wf(g) && CoreOk(g, inactive, c) && n in c.s.executing && n !in c.crashed
    ensures CoreOk(g, inactive, OnPauseRequested(c, f, n).0) && Balanced(c, OnPauseRequested(c, f, n).0, n)
  {
    hide CoreOk, Balanced;
    if f.completed || f.aborted { CrashKeepsCore(g, inactive, c, f, n); } else { PauseKeepsCore(g, inactive, c, f, n); }
  }

  lemma FailureKeepsCore(g: Graph, inactive: set<NodeId>, c: Core, f: Flags, n: NodeId)
    requires Wf(g) && Promoted(g) && CoreOk(g, inactive, c) && n in c.s.executing && n !in c.crashed
    requires Pending(g, c.s.edge, n, Out(g, n))
    ensures CoreOk(g, inactive, OnFailed(g, c, f, n).0) && Balanced(c, OnFailed(g, c, f, n).0, n)
  {
    hide CoreOk, Pending, Balanced;
    match HandleNodeFailure(g, n, RetryCount(c, n))
    case Retry => RetryKeepsCore(g, inactive, c, n);
    case Fatal => FatalKeepsCore(g, inactive, c, f, n);
    case Exception =>
      CompletionKeepsCore(g, inactive, c, f, n, if Strategy(g, n) == FailBranch then "fail-branch" else "", false);
      CrashKeepsCore(g, inactive, c, f, n);
  }
}
