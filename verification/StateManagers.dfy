/** The ready queue and the state manager as objects (in_memory.py, graph_state_manager.py). Each
    method does to the fields what the functions of `Traversal` and `Completion` say. */
module StateManagers {
  import opened Graphs
  import opened Traversal
  import opened Completion

  /** `ReadyQueueState`. */
  datatype QueueDump = QueueDump(kind: string, version: string, items: seq<NodeId>)

  class ReadyQueue {
    var items: seq<NodeId>

    constructor ()
      ensures items == []
    {
      items := [];
    }

    method Put(n: NodeId)
      modifies this
      ensures items == old(items) + [n]
    {
      items := items + [n];
    }

    method Get() returns (n: NodeId)
      requires items != []
      modifies this
      ensures old(items) == [n] + items
    {
      n := items[0];
      items := items[1..];
    }

    /** Drains the queue and fills it again in the same order. */
    method Dumps() returns (dump: QueueDump)
      modifies this
      ensures dump == QueueDump("InMemoryReadyQueue", "1.0", old(items)) && items == old(items)
    {
      var drained: seq<NodeId> := [];
      while items != []
        invariant drained + items == old(items)
        decreases |items|
      {
        var item := Get();
        drained := drained + [item];
      }
      for i := 0 to |drained|
        invariant items == drained[..i]
      {
        Put(drained[i]);
        assert drained[..i + 1] == drained[..i] + [drained[i]];
      }
      dump := QueueDump("InMemoryReadyQueue", "1.0", drained);
    }

    /** Replaces the contents, unless the dump is of another type or version. */
    method Loads(dump: QueueDump) returns (ok: bool)
      modifies this
      ensures ok == (dump.kind == "InMemoryReadyQueue" && dump.version == "1.0")
      ensures items == if ok then dump.items else old(items)
    {
      if dump.kind != "InMemoryReadyQueue" || dump.version != "1.0" { return false; }
      while items != []
        decreases |items|
      {
        var dropped := Get();
      }
      for i := 0 to |dump.items|
        invariant items == dump.items[..i]
      {
        Put(dump.items[i]);
        assert dump.items[..i + 1] == dump.items[..i] + [dump.items[i]];
      }
      return true;
    }
  }

  /** What a queue dumps, another queue loads. */
  method CopyQueue(source: ReadyQueue, target: ReadyQueue)
    requires source != target
    modifies source, target
    ensures target.items == old(source.items) == source.items
  {
    var dump := source.Dumps();
    var ok := target.Loads(dump);
  }

  class GraphStateManager {
    const g: Graph
    const queue: ReadyQueue
    var node: map<NodeId, Mark>
    var edge: Marks
    var executing: set<NodeId>

    function View(): State
      reads this, queue
    {
      State(node, edge, queue.items, executing)
    }

    constructor (g: Graph, queue: ReadyQueue, node: map<NodeId, Mark>, edge: Marks)
      ensures this.g == g && this.queue == queue && View() == State(node, edge, queue.items, {})
    {
      this.g := g;
      this.queue := queue;
      this.node := node;
      this.edge := edge;
      executing := {};
    }

    method EnqueueNode(n: NodeId)
      modifies this`node, queue
      ensures View() == old(View()).(node := old(node)[n := Taken], queue := old(queue.items) + [n])
    {
      node := node[n := Taken];
      queue.Put(n);
    }

    method MarkNodeSkipped(n: NodeId)
      modifies this`node
      ensures View() == MarkNode(old(View()), n, Skipped)
    {
      node := node[n := Skipped];
    }

    method MarkEdgeTaken(e: EdgeId)
      modifies this`edge
      ensures View() == MarkEdge(old(View()), e, Taken)
    {
      edge := edge[e := Taken];
    }

    method MarkEdgeSkipped(e: EdgeId)
      modifies this`edge
      ensures View() == MarkEdge(old(View()), e, Skipped)
    {
      edge := edge[e := Skipped];
    }

    method StartExecution(n: NodeId)
      modifies this`executing
      ensures View() == old(View()).(executing := old(executing) + {n})
    {
      executing := executing + {n};
    }

    method FinishExecution(n: NodeId)
      modifies this`executing
      ensures View() == old(View()).(executing := old(executing) - {n})
    {
      executing := executing - {n};
    }

    /** No in-edge at all, or none UNKNOWN and one TAKEN. */
    method IsNodeReady(n: NodeId) returns (ready: bool)
      requires Wf(g)
      ensures ready == IsReady(g, edge, n)
      ensures In(g, n) == [] ==> ready
      ensures In(g, n) != [] ==>
        (ready <==>
           (forall e :: e in In(g, n) ==> EdgeMark(edge, e) != Unknown) &&
           exists e :: e in In(g, n) && EdgeMark(edge, e) == Taken)
    {
      var ins := In(g, n);
      assert LinkedAt(g, n);
      if ins == [] {
        assert forall e :: e in g.edges ==> Head(g, e) != n;
        return true;
      }
      assert ins[0] in ins;
      for i := 0 to |ins|
        invariant forall k :: 0 <= k < i ==> EdgeMark(edge, ins[k]) != Unknown
      {
        if EdgeMark(edge, ins[i]) == Unknown {
          assert ins[i] in ins;
          return false;
        }
      }
      assert !HasUnknown(g, edge, n);
      for i := 0 to |ins|
        invariant forall k :: 0 <= k < i ==> EdgeMark(edge, ins[k]) != Taken
      {
        if EdgeMark(edge, ins[i]) == Taken {
          assert ins[i] in ins;
          return true;
        }
      }
      return false;
    }

    /** The set of states among the edges, as three flags; none at all counts as all skipped. */
    method AnalyzeEdgeStates(es: seq<EdgeId>) returns (hasUnknown: bool, hasTaken: bool, allSkipped: bool)
      ensures hasUnknown <==> exists e :: e in es && EdgeMark(edge, e) == Unknown
      ensures hasTaken <==> exists e :: e in es && EdgeMark(edge, e) == Taken
      ensures allSkipped <==> forall e :: e in es ==> EdgeMark(edge, e) == Skipped
    {
      var states := set e | e in es :: EdgeMark(edge, e);
      hasUnknown := Unknown in states;
      hasTaken := Taken in states;
      allSkipped := if states != {} then states == {Skipped} else true;
      if es == [] {
        assert states == {};
      } else {
        assert es[0] in es && EdgeMark(edge, es[0]) in states;
        assert forall e :: e in es ==> EdgeMark(edge, e) in states;
        if forall e :: e in es ==> EdgeMark(edge, e) == Skipped { assert states == {Skipped}; }
      }
    }

    /** Of the in-edges of a node, the flags are those that skip propagation decides by. */
    lemma FlagsOfInEdges(n: NodeId)
      requires Wf(g)
      ensures HasUnknown(g, edge, n) <==> exists e :: e in In(g, n) && EdgeMark(edge, e) == Unknown
      ensures HasTaken(g, edge, n) <==> exists e :: e in In(g, n) && EdgeMark(edge, e) == Taken
      ensures AllSkipped(g, edge, n) <==> forall e :: e in In(g, n) ==> EdgeMark(edge, e) == Skipped
    {
      assert LinkedAt(g, n);
    }

    method CategorizeBranchEdges(n: NodeId, handle: string) returns (selected: seq<EdgeId>, unselected: seq<EdgeId>)
      ensures selected == Selected(g, n, handle) && unselected == Unselected(g, n, handle)
    {
      var es := Out(g, n);
      selected, unselected := [], [];
      assert es[0..] == es;
      for i := 0 to |es|
        invariant selected + Categorize(g, es[i..], handle, true) == Selected(g, n, handle)
        invariant unselected + Categorize(g, es[i..], handle, false) == Unselected(g, n, handle)
      {
        assert es[i..][1..] == es[i + 1..];
        if Handle(g, es[i]) == handle { selected := selected + [es[i]]; } else { unselected := unselected + [es[i]]; }
      }
      assert es[|es|..] == [];
    }

    method IsExecutionComplete() returns (complete: bool)
      ensures complete == (View().queue == [] && View().executing == {})
    {
      complete := queue.items == [] && executing == {};
    }
  }
}
