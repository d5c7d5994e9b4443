/** What the end of an attempt does, said by the configuration of the node and by the marks before
    and after (event_handlers.py, error_handler.py). */
module HandlerLaws {
  import opened Templates
  import opened VariablePool
  import opened Graphs
  import opened Traversal
  import opened Completion
  import opened Marking
  import opened Scheduler

  // ---------- skipped paths first, taken edges then ----------

  /** The released nodes that an edge which `n` takes leads to. */
  ghost function ReleasedVia(g: Graph, m: Marks, r: Marks, n: NodeId, handle: string): set<NodeId> {
    set k | k in Released(g, m, r) && exists d :: d in TakenBy(g, n, handle) && Head(g, d) == k
  }

  lemma ReleasedSplits(g: Graph, s: Marks, m: Marks, r: Marks, t1: set<EdgeId>, k1: set<EdgeId>, t2: set<EdgeId>,
      k2: set<EdgeId>)
    requires EdgesResolved(g, s, m, t1, k1) && EdgesResolved(g, m, r, t2, k2)
    ensures Released(g, s, r) == Released(g, s, m) + Released(g, m, r)
  {
    SettlesSplit(g, s, m, r, t1, k1, t2, k2);
  }

  /** A node that a taken edge leads to waits for that edge while the unselected paths are skipped. */
  lemma SkippedThenTaken(g: Graph, s: Marks, m: Marks, n: NodeId, handle: string, es: seq<EdgeId>)
    requires EdgesResolved(g, s, m, {}, SkippedBy(g, n, handle)) && Elems(es) == TakenBy(g, n, handle)
    requires EdgesResolved(g, m, TakeEdges(g, m, es).0, TakenBy(g, n, handle), {})
    requires forall d :: d in TakenBy(g, n, handle) ==> EdgeMark(m, d) == Unknown
    ensures var r := TakeEdges(g, m, es).0;
      && Released(g, m, r) == ReleasedVia(g, s, r, n, handle)
      && Released(g, s, m) == Released(g, s, r) - ReleasedVia(g, s, r, n, handle)
  {
    var r := TakeEdges(g, m, es).0;
    ReleasedSplits(g, s, m, r, {}, SkippedBy(g, n, handle), TakenBy(g, n, handle), {});
    forall k | k in Released(g, m, r) ensures k in ReleasedVia(g, s, r, n, handle) {
      var d :| d in g.edges && Head(g, d) == k && EdgeMark(m, d) == Unknown;
      if d !in es { TakingKeepsOthers(g, m, es, d); }
      assert d in Elems(es);
    }
    forall k | k in Released(g, s, m) ensures k !in ReleasedVia(g, s, r, n, handle) {
      if d :| d in TakenBy(g, n, handle) && Head(g, d) == k { assert HasUnknown(g, m, k); }
    }
  }

  lemma ViaIsReleased(g: Graph, m: Marks, r: Marks, n: NodeId, handle: string)
    ensures ReleasedVia(g, m, r, n, handle) <= Released(g, m, r)
  {
  }

  ghost function AnswerOf(g: Graph, s: State, n: NodeId, handle: string): Outcome
    requires Wf(g) && Pending(g, s.edge, n, Out(g, n))
  {
    if IsBranch(g, n) then HandleBranchCompletion(g, s, n, handle) else ProcessNodeSuccess(g, s, n, handle)
  }

  /** The unselected paths release some nodes, the taken edges the others. */
  lemma CompletionSplits(g: Graph, s: State, n: NodeId, handle: string) returns (m: State)
    requires Wf(g) && Pending(g, s.edge, n, Out(g, n)) && (IsBranch(g, n) ==> handle != "")
    ensures var o := AnswerOf(g, s, n, handle);
      && o.Done? && o.state == m.(edge := o.state.edge)
      && Resolves(g, s, o.state, TakenBy(g, n, handle), SkippedBy(g, n, handle), o.ready)
      && Resolves(g, s, m, {}, SkippedBy(g, n, handle), [])
      && Released(g, s.edge, m.edge) ==
           Released(g, s.edge, o.state.edge) - ReleasedVia(g, s.edge, o.state.edge, n, handle)
      && (!IsBranch(g, n) ==> Released(g, s.edge, m.edge) == {})
  {
    hide Resolves, ReleasedVia, Released, EdgesResolved, SkippedBy, TakenBy, Pending;
    CompletionResolves(g, s, n, handle);
    var es := if IsBranch(g, n) then Selected(g, n, handle) else Out(g, n);
    EdgesOfCompletion(g, n, handle);
    if IsBranch(g, n) {
      m := BranchSkips(g, s, n, handle);
    } else {
      m := s;
      NothingResolves(g, s);
      NothingReleased(g, s.edge);
      PendingIsUnknown(g, s.edge, n, es);
    }
    assert forall d :: d in TakenBy(g, n, handle) ==> EdgeMark(m.edge, d) == Unknown;
    TakeEdgesResolves(g, m, n, es);
    EdgesOfResolves(g, s, m, {}, SkippedBy(g, n, handle), []);
    EdgesOfResolves(g, m, m.(edge := TakeEdges(g, m.edge, es).0), Elems(es), {}, TakeEdges(g, m.edge, es).1);
    SkippedThenTaken(g, s.edge, m.edge, n, handle, es);
  }

  lemma NothingReleased(g: Graph, m: Marks)
    ensures Released(g, m, m) == {}
  {
  }

  lemma EdgesOfResolves(g: Graph, s: State, r: State, take: set<EdgeId>, skip: set<EdgeId>, ready: seq<NodeId>)
    requires Resolves(g, s, r, take, skip, ready)
    ensures EdgesResolved(g, s.edge, r.edge, take, skip)
  {
  }

  lemma PendingIsUnknown(g: Graph, m: Marks, n: NodeId, es: seq<EdgeId>)
    requires Pending(g, m, n, es)
    ensures forall d :: d in Elems(es) ==> EdgeMark(m, d) == Unknown
  {
    assert forall d :: d in Elems(es) ==> d in es;
  }

  lemma EdgesOfCompletion(g: Graph, n: NodeId, handle: string)
    requires Wf(g)
    ensures Elems(if IsBranch(g, n) then Selected(g, n, handle) else Out(g, n)) == TakenBy(g, n, handle)
    ensures IsBranch(g, n) ==> Elems(Unselected(g, n, handle)) == SkippedBy(g, n, handle)
    ensures !IsBranch(g, n) ==> SkippedBy(g, n, handle) == {}
  {
    assert LinkedAt(g, n);
    if IsBranch(g, n) { CategoriesAreEdges(g, n, handle); }
  }

  // ---------- how an attempt finishes ----------

  /** `n` has finished with `handle`: all its out-edges are resolved and what follows from that,
      `queued` are the nodes that this queues, `parked` those that it defers, and nothing else has
      changed. */
  ghost predicate Finishes(g: Graph, c: Core, r: Core, n: NodeId, handle: string, queued: set<NodeId>,
      parked: set<NodeId>) {
    && EdgesResolved(g, c.s.edge, r.s.edge, TakenBy(g, n, handle), SkippedBy(g, n, handle))
    && r.s.queue == c.s.queue + Queued(c.s, r.s) && multiset(Queued(c.s, r.s)) == multiset(queued)
    && r.s.executing == (c.s.executing + queued) - {n}
    && (forall k :: k in g.nodes ==>
          NodeMark(r.s, k) == if Dies(g, c.s.edge, r.s.edge, k) then Skipped else if k in queued then Taken
            else NodeMark(c.s, k))
    && r == c.(s := r.s, finished := c.finished[n := handle], deferred := c.deferred + parked, taken := r.taken)
  }

  /** What is handed back is what the unselected paths have not released. */
  lemma ReadyIsTheRest(g: Graph, s: State, r: State, ready: seq<NodeId>, first: set<NodeId>)
    requires multiset(Queued(s, r)) == multiset(first) && first <= Released(g, s.edge, r.edge)
    requires multiset(Queued(s, r)) + multiset(ready) == multiset(Released(g, s.edge, r.edge))
    ensures Elems(ready) == Released(g, s.edge, r.edge) - first && Elems(Queued(s, r)) == first
  {
    hide Queued, Released;
    var now, released := Queued(s, r), Released(g, s.edge, r.edge);
    ListsReleased(now, ready, released);
    assert forall k :: k in now <==> multiset(now)[k] > 0;
  }

  lemma FinishesBy(g: Graph, c: Core, n: NodeId, handle: string, o: Outcome, defer: bool, s1: State,
      queued: set<NodeId>, parked: set<NodeId>)
    requires o.Done? && s1 == if defer then o.state else ScheduleAll(o.state, o.ready)
    requires EdgesResolved(g, c.s.edge, s1.edge, TakenBy(g, n, handle), SkippedBy(g, n, handle))
    requires NodesResolved(g, c.s, s1, queued)
    requires s1.queue == c.s.queue + Queued(c.s, s1) && multiset(Queued(c.s, s1)) == multiset(queued)
    requires s1.executing == c.s.executing + queued && parked == if defer then Elems(o.ready) else {}
    ensures Finishes(g, c, Complete(g, c, n, handle, o, defer), n, handle, queued, parked)
  {
    hide EdgesResolved, Dies, ScheduleAll, Elems, TakenList, TakenBy, SkippedBy;
    var r := Complete(g, c, n, handle, o, defer);
    assert Queued(c.s, r.s) == Queued(c.s, s1);
    hide Queued;
    assert r.s == s1.(executing := s1.executing - {n});
  }

  lemma PartsOfResolves(g: Graph, s: State, r: State, take: set<EdgeId>, skip: set<EdgeId>, ready: seq<NodeId>)
    requires Resolves(g, s, r, take, skip, ready)
    ensures EdgesResolved(g, s.edge, r.edge, take, skip) && NodesResolved(g, s, r, Elems(Queued(s, r)))
    ensures r.queue == s.queue + Queued(s, r) && r.executing == s.executing + Elems(Queued(s, r))
    ensures multiset(Queued(s, r)) + multiset(ready) == multiset(Released(g, s.edge, r.edge))
  {
  }

  /** Completing a node while ready nodes are deferred: only those are queued that the unselected
      paths release. */
  lemma CompleteDefers(g: Graph, c: Core, n: NodeId, handle: string)
    requires Wf(g) && Pending(g, c.s.edge, n, Out(g, n)) && (IsBranch(g, n) ==> handle != "")
    ensures AnswerOf(g, c.s, n, handle).Done?
    ensures var r := Complete(g, c, n, handle, AnswerOf(g, c.s, n, handle), true);
      var released, via := Released(g, c.s.edge, r.s.edge), ReleasedVia(g, c.s.edge, r.s.edge, n, handle);
      Finishes(g, c, r, n, handle, released - via, via) && (!IsBranch(g, n) ==> released - via == {})
  {
    hide *;
    var m := CompletionSplits(g, c.s, n, handle);
    var o := AnswerOf(g, c.s, n, handle);
    var released, via := Released(g, c.s.edge, o.state.edge), ReleasedVia(g, c.s.edge, o.state.edge, n, handle);
    PartsOfResolves(g, c.s, m, {}, SkippedBy(g, n, handle), []);
    PartsOfResolves(g, c.s, o.state, TakenBy(g, n, handle), SkippedBy(g, n, handle), o.ready);
    ViaIsReleased(g, c.s.edge, o.state.edge, n, handle);
    SameQueue(c.s, m, o.state);
    ReadyIsTheRest(g, c.s, o.state, o.ready, released - via);
    assert released - (released - via) == via;
    FinishesBy(g, c, n, handle, o, true, o.state, released - via, via);
    CompletedEdges(g, c, n, handle, o, true);
  }

  lemma SameQueue(s: State, m: State, r: State)
    requires m.queue == r.queue
    ensures Queued(s, m) == Queued(s, r)
  {
  }

  lemma CompletedEdges(g: Graph, c: Core, n: NodeId, handle: string, o: Outcome, defer: bool)
    requires o.Done?
    ensures Complete(g, c, n, handle, o, defer).s.edge == o.state.edge
  {
    ScheduleAllEffect(o.state, o.ready);
    hide ScheduleAll;
  }

  /** ... and otherwise every released node is. */
  lemma CompleteQueues(g: Graph, c: Core, n: NodeId, handle: string)
    requires Wf(g) && Pending(g, c.s.edge, n, Out(g, n)) && (IsBranch(g, n) ==> handle != "")
    ensures AnswerOf(g, c.s, n, handle).Done?
    ensures var r := Complete(g, c, n, handle, AnswerOf(g, c.s, n, handle), false);
      Finishes(g, c, r, n, handle, Released(g, c.s.edge, r.s.edge), {})
  {
    hide *;
    var m := CompletionSplits(g, c.s, n, handle);
    var o := AnswerOf(g, c.s, n, handle);
    var s1 := ScheduleAll(o.state, o.ready);
    ScheduleAllEffect(o.state, o.ready);
    ScheduleAllResolves(g, c.s, o.state, TakenBy(g, n, handle), SkippedBy(g, n, handle), o.ready);
    PartsOfResolves(g, c.s, s1, TakenBy(g, n, handle), SkippedBy(g, n, handle), []);
    ReadyIsTheRest(g, c.s, s1, [], Released(g, c.s.edge, s1.edge));
    FinishesBy(g, c, n, handle, o, false, s1, Released(g, c.s.edge, s1.edge), {});
    CompletedEdges(g, c, n, handle, o, false);
  }

  lemma RestStaysPending(g: Graph, m: Marks, n: NodeId, es: seq<EdgeId>)
    requires Wf(g) && Pending(g, m, n, es) && es != []
    ensures Pending(g, m[es[0] := Taken], n, es[1..])
    ensures IsReady(g, m[es[0] := Taken], Head(g, es[0])) ==> forall j :: 0 < j < |es| ==>
      Head(g, es[j]) != Head(g, es[0])
  {
    var m1 := m[es[0] := Taken];
    assert es[0] in es;
    MarkIsCausal(g, m, n, es[0], Taken);
    NoDupTail(es);
    forall j | 0 < j < |es| ensures es[j] in es[1..] && es[j] in g.edges && EdgeMark(m1, es[j]) == Unknown {
      assert es[j] == es[1..][j - 1];
    }
    assert HasTaken(g, m1, Head(g, es[0]));
  }

  /** The edges at the indices `at` are the last of `es` that lead to each of `ready`, in order. */
  ghost predicate LastEdges(g: Graph, es: seq<EdgeId>, ready: seq<NodeId>, at: seq<nat>) {
    && |at| == |ready|
    && (forall i, j :: 0 <= i < j < |at| ==> at[i] < at[j])
    && (forall i :: 0 <= i < |at| ==> at[i] < |es| && Head(g, es[at[i]]) == ready[i])
    && forall i, j :: 0 <= i < |at| && at[i] < j < |es| ==> Head(g, es[j]) != ready[i]
  }

  /** Ready nodes are handed back in the order of the last edges that lead to them. */
  lemma {:induction false} ReadyInOrder(g: Graph, m: Marks, n: NodeId, es: seq<EdgeId>) returns (at: seq<nat>)
    requires Wf(g) && Pending(g, m, n, es)
    ensures LastEdges(g, es, TakeEdges(g, m, es).1, at)
    decreases |es|
  {
    hide IsReady, Pending, Wf, LastEdges;
    if es == [] {
      at := [];
      assert LastEdges(g, es, [], at) by { NothingInOrder(g); }
    } else {
      var m1, h := m[es[0] := Taken], Head(g, es[0]);
      RestStaysPending(g, m, n, es);
      var later := ReadyInOrder(g, m1, n, es[1..]);
      var ready := TakeEdges(g, m1, es[1..]).1;
      at := OneLater(g, es, ready, later);
      if IsReady(g, m1, h) {
        OneFirst(g, es, ready, at);
        at := [0] + at;
      } else {
        assert [] + ready == ready;
      }
    }
  }

  lemma NothingInOrder(g: Graph)
    ensures LastEdges(g, [], [], [])
  {
  }

  lemma OneLater(g: Graph, es: seq<EdgeId>, ready: seq<NodeId>, later: seq<nat>) returns (at: seq<nat>)
    requires es != [] && LastEdges(g, es[1..], ready, later)
    ensures LastEdges(g, es, ready, at) && forall i :: 0 <= i < |at| ==> at[i] > 0
  {
    hide Head;
    at := seq(|later|, i requires 0 <= i < |later| => later[i] + 1);
    forall i, j | 0 <= i < |at| && at[i] < j < |es| ensures Head(g, es[j]) != ready[i] {
      assert es[j] == es[1..][j - 1] && later[i] < j - 1;
    }
  }

  lemma OneFirst(g: Graph, es: seq<EdgeId>, ready: seq<NodeId>, at: seq<nat>)
    requires es != [] && LastEdges(g, es, ready, at) && forall i :: 0 <= i < |at| ==> at[i] > 0
    requires forall j :: 0 < j < |es| ==> Head(g, es[j]) != Head(g, es[0])
    ensures LastEdges(g, es, [Head(g, es[0])] + ready, [0] + at)
  {
    hide Head;
  }

  /** A branch takes its selected edges in the order of the edge table. */
  lemma {:induction false} CategoryInOrder(g: Graph, es: seq<EdgeId>, handle: string, selected: bool)
    returns (at: seq<nat>)
    ensures var r := Categorize(g, es, handle, selected);
      && |at| == |r| && (forall i, j :: 0 <= i < j < |at| ==> at[i] < at[j])
      && forall i :: 0 <= i < |at| ==> at[i] < |es| && es[at[i]] == r[i]
    decreases |es|
  {
    at := [];
    if es != [] {
      var later := CategoryInOrder(g, es[1..], handle, selected);
      hide Handle;
      at := seq(|later|, i requires 0 <= i < |later| => later[i] + 1);
      if (Handle(g, es[0]) == handle) == selected { at := [0] + at; }
    }
  }

  // ---------- successes ----------

  /** The success of `n`, unless it is a branch that has selected no handle. While the run is
      paused, what a taken edge releases is deferred, and only what the unselected paths of a branch
      release is queued; otherwise everything released is queued and nothing is deferred. */
  lemma SuccessFinishes(g: Graph, inactive: set<NodeId>, c: Core, f: Flags, n: NodeId, handle: string,
      outputs: map<string, Value>)
    requires Wf(g) && CoreOk(g, inactive, c) && n in c.s.executing && (Kind(g, n) == Branch ==> handle != "")
    ensures Pending(g, c.s.edge, n, Out(g, n))
    ensures var (r, q) := HandleEvent(g, c, f, Succeeded(n, handle, outputs));
      var h := if Kind(g, n) == Branch then handle else "";
      var released, via := Released(g, c.s.edge, r.s.edge), ReleasedVia(g, c.s.edge, r.s.edge, n, h);
      && q == f && (Kind(g, n) != Branch ==> released - via == {})
      && if f.paused then Finishes(g, c, r, n, h, released - via, via) else Finishes(g, c, r, n, h, released, {})
  {
    hide CoreOk, Pending, Finishes, Complete, ReleasedVia, Released, HandleBranchCompletion, ProcessNodeSuccess;
    ExecutingIsPending(g, inactive, c, n);
    var h := if Kind(g, n) == Branch then handle else "";
    CompleteDefers(g, c, n, h);
    CompleteQueues(g, c, n, h);
    CompletedEdges(g, c, n, h, AnswerOf(g, c.s, n, h), true);
    CompletedEdges(g, c, n, h, AnswerOf(g, c.s, n, h), false);
  }

  /** A branch that has selected no handle: its handler raises. */
  lemma SuccessRaises(g: Graph, inactive: set<NodeId>, c: Core, f: Flags, n: NodeId, outputs: map<string, Value>)
    requires Wf(g) && CoreOk(g, inactive, c) && n in c.s.executing && Kind(g, n) == Branch
    ensures Pending(g, c.s.edge, n, Out(g, n))
    ensures HandleEvent(g, c, f, Succeeded(n, "", outputs)) ==
      (c.(crashed := c.crashed + {n}), f.(error := true, completed := true))
  {
    hide CoreOk, Pending;
    ExecutingIsPending(g, inactive, c, n);
  }

  // ---------- failures ----------

  /** The node is configured to be tried again and has tries left. */
  predicate TriesLeft(g: Graph, c: Core, n: NodeId) {
    n in g.nodes && g.nodes[n].retry && RetryCount(c, n) < g.nodes[n].maxRetries
  }

  /** A failure with tries left: the node is queued again, still executing, and its retry count
      grows by one. Nothing else changes. */
  lemma FailureRetries(g: Graph, inactive: set<NodeId>, c: Core, f: Flags, n: NodeId)
    requires Wf(g) && CoreOk(g, inactive, c) && n in c.s.executing && TriesLeft(g, c, n)
    ensures Pending(g, c.s.edge, n, Out(g, n))
    ensures var (r, q) := HandleEvent(g, c, f, Failed(n));
      && q == f && r == c.(s := r.s, retries := r.retries)
      && r.s == c.s.(queue := c.s.queue + [n], node := r.s.node)
      && forall k :: RetryCount(r, k) == RetryCount(c, k) + (if k == n then 1 else 0)
                     && NodeMark(r.s, k) == NodeMark(c.s, k)
  {
    hide CoreOk, Pending, Retries, MaxRetries;
    ExecutingIsPending(g, inactive, c, n);
    ExecutingIsTaken(g, inactive, c, n);
    assert HandleNodeFailure(g, n, RetryCount(c, n)) == Retry by { TriesLeftMeansRetry(g, c, n); }
    RetryQueues(c, n);
  }

  lemma ExecutingIsTaken(g: Graph, inactive: set<NodeId>, c: Core, n: NodeId)
    requires CoreOk(g, inactive, c) && n in c.s.executing
    ensures n in g.nodes && NodeMark(c.s, n) == Taken
  {
    hide EdgeOk, SkipOk;
    assert n in On(c);
    assert NodeOk(g, c.s, Active(c), On(c), n);
  }

  lemma TriesLeftMeansRetry(g: Graph, c: Core, n: NodeId)
    requires n in g.nodes
    ensures HandleNodeFailure(g, n, RetryCount(c, n)) == Retry <==> TriesLeft(g, c, n)
    ensures !TriesLeft(g, c, n) ==>
      (HandleNodeFailure(g, n, RetryCount(c, n)) == Fatal <==> g.nodes[n].strategy == Abort)
  {
  }

  lemma RetryQueues(c: Core, n: NodeId)
    requires n in c.s.executing && NodeMark(c.s, n) == Taken
    ensures var r := OnRetry(c, n);
      && r == c.(s := r.s, retries := r.retries) && r.s == c.s.(queue := c.s.queue + [n], node := r.s.node)
      && forall k :: RetryCount(r, k) == RetryCount(c, k) + (if k == n then 1 else 0) &&
                     NodeMark(r.s, k) == NodeMark(c.s, k)
  {
    assert c.s.executing - {n} + {n} == c.s.executing;
  }

  /** A failure without tries left and without an error strategy ends the run. */
  lemma FailureEndsRun(g: Graph, inactive: set<NodeId>, c: Core, f: Flags, n: NodeId)
    requires Wf(g) && CoreOk(g, inactive, c) && n in c.s.executing
    requires !TriesLeft(g, c, n) && g.nodes[n].strategy == Abort
    ensures Pending(g, c.s.edge, n, Out(g, n))
    ensures HandleEvent(g, c, f, Failed(n)) ==
      (c.(s := c.s.(executing := c.s.executing - {n}), failed := c.failed + {n}), f.(error := true, completed := true))
  {
    hide CoreOk, Pending;
    ExecutingIsPending(g, inactive, c, n);
  }

  lemma StrategyFinishes(g: Graph, inactive: set<NodeId>, c: Core, f: Flags, n: NodeId, handle: string)
    returns (r: Core)
    requires Wf(g) && CoreOk(g, inactive, c) && n in c.s.executing && n in g.nodes && !TriesLeft(g, c, n)
    requires if g.nodes[n].kind == Branch then g.nodes[n].strategy == FailBranch && handle == "fail-branch"
             else g.nodes[n].strategy == DefaultValue && handle == ""
    ensures Pending(g, c.s.edge, n, Out(g, n)) && HandleEvent(g, c, f, Failed(n)) == (r, f)
    ensures Finishes(g, c, r, n, handle, Released(g, c.s.edge, r.s.edge), {})
  {
    hide CoreOk, Pending, Complete, Released, HandleBranchCompletion, ProcessNodeSuccess, Finishes, Wf,
      HandleNodeFailure, TriesLeft;
    ExecutingIsPending(g, inactive, c, n);
    TriesLeftMeansRetry(g, c, n);
    CompleteQueues(g, c, n, handle);
    r := Complete(g, c, n, handle, AnswerOf(g, c.s, n, handle), false);
  }

  /** A failure without tries left of a node with a fail branch that was made a BRANCH: the node
      finishes, the edges of the fail branch are taken and the others skipped. Ready nodes are
      queued even while the run is paused. */
  lemma FailureTakesFailBranch(g: Graph, inactive: set<NodeId>, c: Core, f: Flags, n: NodeId)
    requires Wf(g) && CoreOk(g, inactive, c) && n in c.s.executing
    requires !TriesLeft(g, c, n) && g.nodes[n].strategy == FailBranch && g.nodes[n].kind == Branch
    ensures Pending(g, c.s.edge, n, Out(g, n))
    ensures var (r, q) := HandleEvent(g, c, f, Failed(n));
      && q == f && Finishes(g, c, r, n, "fail-branch", Released(g, c.s.edge, r.s.edge), {})
      && forall d :: d in g.edges && g.edges[d].tail == n ==>
           EdgeMark(r.s.edge, d) == if g.edges[d].handle == "fail-branch" then Taken else Skipped
  {
    hide CoreOk, Pending, Finishes, HandleEvent, Released, Wf;
    ExecutingIsTaken(g, inactive, c, n);
    var r := StrategyFinishes(g, inactive, c, f, n, "fail-branch");
    OwnEdges(g, c, r, n, "fail-branch", Released(g, c.s.edge, r.s.edge), {});
  }

  /** A failure without tries left of a plain node with default values: the node finishes and all
      its out-edges are taken. */
  lemma FailureTakesDefault(g: Graph, inactive: set<NodeId>, c: Core, f: Flags, n: NodeId)
    requires Wf(g) && CoreOk(g, inactive, c) && n in c.s.executing
    requires !TriesLeft(g, c, n) && g.nodes[n].strategy == DefaultValue && g.nodes[n].kind != Branch
    ensures Pending(g, c.s.edge, n, Out(g, n))
    ensures var (r, q) := HandleEvent(g, c, f, Failed(n));
      && q == f && Finishes(g, c, r, n, "", Released(g, c.s.edge, r.s.edge), {})
      && forall d :: d in g.edges && g.edges[d].tail == n ==> EdgeMark(r.s.edge, d) == Taken
  {
    hide CoreOk, Pending, Finishes, HandleEvent, Released, Wf;
    ExecutingIsTaken(g, inactive, c, n);
    var r := StrategyFinishes(g, inactive, c, f, n, "");
    OwnEdges(g, c, r, n, "", Released(g, c.s.edge, r.s.edge), {});
  }

  /** A failure without tries left of a BRANCH node with default values: the handler raises. */
  lemma FailureRaises(g: Graph, inactive: set<NodeId>, c: Core, f: Flags, n: NodeId)
    requires Wf(g) && CoreOk(g, inactive, c) && n in c.s.executing
    requires !TriesLeft(g, c, n) && g.nodes[n].strategy == DefaultValue && g.nodes[n].kind == Branch
    ensures Pending(g, c.s.edge, n, Out(g, n))
    ensures HandleEvent(g, c, f, Failed(n)) == (c.(crashed := c.crashed + {n}), f.(error := true, completed := true))
  {
    hide CoreOk, Pending, Wf;
    ExecutingIsPending(g, inactive, c, n);
    ExecutingIsTaken(g, inactive, c, n);
  }

  lemma OwnEdges(g: Graph, c: Core, r: Core, n: NodeId, handle: string, queued: set<NodeId>, parked: set<NodeId>)
    requires Wf(g) && Pending(g, c.s.edge, n, Out(g, n)) && Finishes(g, c, r, n, handle, queued, parked)
    ensures forall d :: d in g.edges && g.edges[d].tail == n ==>
      EdgeMark(r.s.edge, d) == if IsBranch(g, n) ==> g.edges[d].handle == handle then Taken else Skipped
  {
    assert LinkedAt(g, n);
    forall d | d in g.edges && g.edges[d].tail == n ensures EdgeMark(c.s.edge, d) == Unknown { assert d in Out(g, n); }
  }

  // ---------- pauses ----------

  /** A pause that a node asks for parks the node, unless the run is over or aborted: then the
      handler raises. */
  lemma PauseParks(g: Graph, c: Core, f: Flags, n: NodeId)
    requires Wf(g) && Pending(g, c.s.edge, n, Out(g, n))
    ensures var (r, q) := HandleEvent(g, c, f, PauseRequested(n));
      if f.completed || f.aborted then
        r == c.(crashed := c.crashed + {n}) && q == f.(error := true, completed := true)
      else
        && r == c.(s := r.s, paused := c.paused + {n}) && q == f.(paused := true)
        && r.s == c.s.(executing := c.s.executing - {n}, node := r.s.node)
        && forall k :: NodeMark(r.s, k) == if k == n then Unknown else NodeMark(c.s, k)
  {
    hide Pending;
  }
}
