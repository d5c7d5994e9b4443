/** Fail branches on graphs that were not prepared by `Graph.init`. The exception handler treats a
    FAIL_BRANCH node as a branch whatever its execution type; edge processing looks at the type. */
module FailBranches {
  import opened Templates
  import opened Graphs
  import opened Traversal
  import opened Completion
  import opened Scheduler
  import opened Reachability

  /** Every edge that is taken ends TAKEN, also one that had been skipped. */
  lemma {:induction false} TakeEdgesTakes(g: Graph, m: Marks, es: seq<EdgeId>)
    ensures forall e :: EdgeMark(TakeEdges(g, m, es).0, e) == if e in es then Taken else EdgeMark(m, e)
    decreases |es|
  {
    if es != [] { TakeEdgesTakes(g, m[es[0] := Taken], es[1..]); }
  }

  lemma {:induction false} AllSelected(g: Graph, es: seq<EdgeId>, handle: string)
    requires Categorize(g, es, handle, false) == []
    ensures Categorize(g, es, handle, true) == es
    decreases |es|
  {
    if es != [] { AllSelected(g, es[1..], handle); }
  }

  /** On a node that is not of the BRANCH type, completing a branch takes the selected edges and
      skips the others exactly when there are no others. */
  lemma UnpromotedBranch(g: Graph, s: State, n: NodeId, handle: string)
    requires Wf(g) && Pending(g, s.edge, n, Out(g, n)) && !IsBranch(g, n) && handle != ""
    ensures var o := HandleBranchCompletion(g, s, n, handle);
      && o.Done?
      && (Resolves(g, s, o.state, Elems(Selected(g, n, handle)), Elems(Unselected(g, n, handle)), o.ready)
          <==> forall e :: e in g.edges && Tail(g, e) == n ==> Handle(g, e) == handle)
  {
    var sel, uns := Selected(g, n, handle), Unselected(g, n, handle);
    assert LinkedAt(g, n);
    CategorizeElems(g, Out(g, n), handle, false);
    CategorizeElems(g, Out(g, n), handle, true);
    if uns == [] {
      AllSelected(g, Out(g, n), handle);
      NoneUnselected(g, s, n, handle);
      TakeEdgesResolves(g, s, n, Out(g, n));
      assert Elems(uns) == {};
      assert forall e :: e in g.edges && Tail(g, e) == n ==> e in Elems(Out(g, n)) && e !in Elems(uns);
    } else {
      var e := uns[0];
      assert e in Elems(uns) && e in Out(g, n);
      UnselectedIsTaken(g, s, n, handle, e);
      assert !EdgesResolved(g, s.edge, HandleBranchCompletion(g, s, n, handle).state.edge, Elems(sel), Elems(uns));
    }
  }

  lemma NoneUnselected(g: Graph, s: State, n: NodeId, handle: string)
    requires Wf(g) && Pending(g, s.edge, n, Out(g, n)) && !IsBranch(g, n) && handle != ""
    requires Unselected(g, n, handle) == []
    ensures var (r, ready) := TakeEdges(g, s.edge, Out(g, n));
      HandleBranchCompletion(g, s, n, handle) == Done(s.(edge := r), ready)
  {
  }

  lemma UnselectedIsTaken(g: Graph, s: State, n: NodeId, handle: string, e: EdgeId)
    requires Wf(g) && Pending(g, s.edge, n, Out(g, n)) && !IsBranch(g, n) && handle != "" && e in Out(g, n)
    ensures EdgeMark(HandleBranchCompletion(g, s, n, handle).state.edge, e) == Taken
    ensures EdgeMark(s.edge, e) == Unknown
  {
    CategoryIsPending(g, s.edge, n, Out(g, n), handle, false);
    TakeEdgesTakes(g, SkipEdges(g, s, n, Unselected(g, n, handle)).edge, Out(g, n));
  }

  /** The exception handler raises exactly for a BRANCH node with a default value, which has no
      handle to go on with; it then leaves every mark as it was. */
  lemma ExceptionRaises(g: Graph, c: Core, f: Flags, n: NodeId)
    requires Wf(g) && Pending(g, c.s.edge, n, Out(g, n)) && Strategy(g, n) != Abort && n !in c.crashed
    ensures var r := OnException(g, c, f, n).0;
      && (n in r.crashed <==> Strategy(g, n) == DefaultValue && IsBranch(g, n))
      && (n in r.crashed ==> r == c.(crashed := c.crashed + {n}))
  {
    hide Pending, SkipEdges, ScheduleAll, TakeEdges, RemarkSkipped, TakenList;
    RaisingMeans(g, c.s, n, "");
    RaisingMeans(g, c.s, n, "fail-branch");
  }

  // ---------- an example ----------

  /** The rules of graph validation: edges have existing ends and the root is of kind ROOT. */
  predicate Validates(g: Graph) {
    && (forall e | e in g.edges :: Tail(g, e) in g.nodes && Head(g, e) in g.nodes)
    && g.root in g.nodes && Kind(g, g.root) == Root
  }

  function Plain(kind: ExecutionType, strategy: ErrorStrategy): Node { Node(kind, strategy, false, 0, {}, []) }

  /** From the root an edge leads to `a`, which has a fail branch, and from there another one, on
      the ordinary handle, to `b`. */
  function Example(root: NodeId, a: NodeId, b: NodeId, ra: EdgeId, ab: EdgeId): Graph {
    Graph(map[root := Plain(Root, Abort), a := Plain(Executable, FailBranch), b := Plain(Executable, Abort)],
          map[ra := Edge(root, a, "source"), ab := Edge(a, b, "source")],
          map[a := [ra], b := [ab]], map[root := [ra], a := [ab]], root)
  }

  /** The root has finished and a worker runs `a`. */
  function Running(root: NodeId, a: NodeId, ra: EdgeId): State {
    State(map[root := Taken, a := Taken], map[ra := Taken], [], {a})
  }

  predicate Distinct(root: NodeId, a: NodeId, b: NodeId, ra: EdgeId, ab: EdgeId) {
    root != a && root != b && a != b && ra != ab
  }

  lemma ExampleTables(root: NodeId, a: NodeId, b: NodeId, ra: EdgeId, ab: EdgeId)
    requires Distinct(root, a, b, ra, ab)
    ensures var g := Example(root, a, b, ra, ab);
      && g.edges.Keys == {ra, ab} && g.nodes.Keys == {root, a, b} && g.root == root
      && Tail(g, ra) == root && Head(g, ra) == a && Tail(g, ab) == a && Head(g, ab) == b && Handle(g, ab) == "source"
      && Out(g, root) == [ra] && Out(g, a) == [ab] && Strategy(g, a) == FailBranch && !IsBranch(g, a) && Validates(g)
      && forall n ::
           && Out(g, n) == (if n == root then [ra] else if n == a then [ab] else [])
           && In(g, n) == (if n == a then [ra] else if n == b then [ab] else [])
  {
  }

  lemma ExampleIsWf(root: NodeId, a: NodeId, b: NodeId, ra: EdgeId, ab: EdgeId)
    requires Distinct(root, a, b, ra, ab)
    ensures Wf(Example(root, a, b, ra, ab))
  {
    var g := Example(root, a, b, ra, ab);
    ExampleTables(root, a, b, ra, ab);
    assert ab in g.edges && ra in g.edges && forall e :: e in g.edges ==> e == ra || e == ab;
    hide Example;
    forall n ensures LinkedAt(g, n) {
      ListsOne(g, n, root, a, b, ra, ab);
    }
  }

  lemma ListsOne(g: Graph, n: NodeId, root: NodeId, a: NodeId, b: NodeId, ra: EdgeId, ab: EdgeId)
    requires Distinct(root, a, b, ra, ab) && ra in g.edges && ab in g.edges
    requires forall e :: e in g.edges ==> e == ra || e == ab
    requires Tail(g, ra) == root && Head(g, ra) == a && Tail(g, ab) == a && Head(g, ab) == b
    requires Out(g, n) == (if n == root then [ra] else if n == a then [ab] else [])
    requires In(g, n) == (if n == a then [ra] else if n == b then [ab] else [])
    ensures LinkedAt(g, n)
  {
    hide Tail, Head, Out, In;
    assert multiset(Out(g, n)) <= multiset{ra, ab};
  }

  lemma ExampleIsPending(root: NodeId, a: NodeId, b: NodeId, ra: EdgeId, ab: EdgeId)
    requires Distinct(root, a, b, ra, ab)
    ensures Pending(Example(root, a, b, ra, ab), Running(root, a, ra).edge, a, [ab])
  {
    var g, m := Example(root, a, b, ra, ab), Running(root, a, ra).edge;
    ExampleTables(root, a, b, ra, ab);
    hide Example, Out, In, Validates, Running;
    assert EdgeMark(m, ab) == Unknown && EdgeMark(m, ra) == Taken by { ExampleMarks(root, a, ra, ab); }
    assert multiset([ab]) == multiset{ab};
  }

  lemma ExampleMarks(root: NodeId, a: NodeId, ra: EdgeId, ab: EdgeId)
    requires ra != ab
    ensures EdgeMark(Running(root, a, ra).edge, ab) == Unknown && EdgeMark(Running(root, a, ra).edge, ra) == Taken
  {
  }

  lemma TakeOne(g: Graph, m: Marks, e: EdgeId)
    ensures TakeEdges(g, m, [e]) == (m[e := Taken], if IsReady(g, m[e := Taken], Head(g, e)) then [Head(g, e)] else [])
  {
    var none: seq<EdgeId> := [];
    assert [e][1..] == none;
    var here := if IsReady(g, m[e := Taken], Head(g, e)) then [Head(g, e)] else [];
    assert here + [] == here;
  }

  /** The success of the root leads to that state: it takes the edge to `a`, which is ready. */
  lemma ExampleIsReached(root: NodeId, a: NodeId, b: NodeId, ra: EdgeId, ab: EdgeId)
    requires Distinct(root, a, b, ra, ab)
    ensures var g := Example(root, a, b, ra, ab);
      var o := ProcessNodeSuccess(g, State(map[root := Taken], map[], [], {root}), root, "");
      o.Done? && o.ready == [a] &&
      var s := ScheduleAll(o.state, o.ready);
      s.(queue := [], executing := s.executing - {root}) == Running(root, a, ra)
  {
    var g := Example(root, a, b, ra, ab);
    ExampleTables(root, a, b, ra, ab);
    TakeOne(g, map[], ra);
    assert forall e :: e in g.edges && Head(g, e) == a ==> e == ra;
    assert ra in g.edges && EdgeMark(map[ra := Taken], ra) == Taken;
    var o := ProcessNodeSuccess(g, State(map[root := Taken], map[], [], {root}), root, "");
    assert o.ready == [a];
    assert [a][1..] == [];
    assert {root} + {a} - {root} == {a};
  }

  /** The skip phase alone: the node behind the edge is skipped. */
  lemma ExampleSkips(root: NodeId, a: NodeId, b: NodeId, ra: EdgeId, ab: EdgeId) returns (m: State)
    requires Distinct(root, a, b, ra, ab)
    ensures var g := Example(root, a, b, ra, ab);
      && Wf(g) && Pending(g, Running(root, a, ra).edge, a, [ab]) && Unselected(g, a, "fail-branch") == [ab]
      && m == SkipEdges(g, Running(root, a, ra), a, [ab]) && NodeMark(m, b) == Skipped
  {
    var g, s := Example(root, a, b, ra, ab), Running(root, a, ra);
    ExampleIsWf(root, a, b, ra, ab);
    ExampleTables(root, a, b, ra, ab);
    ExampleIsPending(root, a, b, ra, ab);
    hide Wf, Pending, Example, Running, SkipEdges;
    OneUnselected(g, a, ab, "fail-branch");
    m := SkipEdges(g, s, a, [ab]);
    ExampleMarks(root, a, ra, ab);
    OneDies(g, s, m, a, b, ab);
  }

  lemma OneUnselected(g: Graph, n: NodeId, e: EdgeId, handle: string)
    requires Out(g, n) == [e] && |Handle(g, e)| != |handle|
    ensures Unselected(g, n, handle) == [e]
  {
    var none: seq<EdgeId> := [];
    assert [e][1..] == none && Categorize(g, none, handle, false) == none;
    assert Categorize(g, [e], handle, false) == [e] + Categorize(g, [e][1..], handle, false);
  }

  lemma OneDies(g: Graph, s: State, m: State, n: NodeId, b: NodeId, e: EdgeId)
    requires Wf(g) && Pending(g, s.edge, n, [e]) && m == SkipEdges(g, s, n, [e]) && Head(g, e) == b && b in g.nodes
    requires EdgeMark(s.edge, e) == Unknown && forall d :: d in g.edges && Head(g, d) == b ==> d == e
    ensures NodeMark(m, b) == Skipped
  {
    SkipEdgesResolves(g, s, n, [e]);
    hide SkipEdges, Wf;
    assert e in Elems([e]) && e in [e];
    assert EdgeMark(m.edge, e) == Skipped;
    assert Dies(g, s.edge, m.edge, b);
  }

  /** A graph that validation accepts: when `a` fails, its only edge is skipped, with the node
      behind it, and then taken, and a SKIPPED node is handed to the scheduler. */
  lemma UnpromotedCounterexample(root: NodeId, a: NodeId, b: NodeId, ra: EdgeId, ab: EdgeId)
    requires Distinct(root, a, b, ra, ab)
    ensures var g, s := Example(root, a, b, ra, ab), Running(root, a, ra);
      && Validates(g) && Wf(g) && Out(g, a) == [ab] && Pending(g, s.edge, a, [ab])
      && Strategy(g, a) == FailBranch && !IsBranch(g, a)
      && var o := HandleBranchCompletion(g, s, a, "fail-branch");
         o.Done? && o.ready == [b] && NodeMark(o.state, b) == Skipped && EdgeMark(o.state.edge, ab) == Taken
  {
    var g, s := Example(root, a, b, ra, ab), Running(root, a, ra);
    ExampleTables(root, a, b, ra, ab);
    var m := ExampleSkips(root, a, b, ra, ab);
    hide Wf, SkipEdges, Pending, Example, Running, Validates;
    TakeOne(g, m.edge, ab);
    assert forall e :: e in g.edges && Head(g, e) == b ==> e == ab;
    assert ab in g.edges && EdgeMark(m.edge[ab := Taken], ab) == Taken;
    assert ProcessNodeSuccess(g, m, a, "fail-branch") == Done(m.(edge := m.edge[ab := Taken]), [b]);
  }
}
