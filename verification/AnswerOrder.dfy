/** A run in which the answer and the stream disagree: two response nodes behind the root, of which
    the one whose session starts second completes first. */
module AnswerOrder {
  import opened Templates
  import opened VariablePool
  import opened Graphs
  import opened Traversal
  import opened Completion
  import opened Marking
  import opened Scheduler
  import opened Runs
  import opened Paths
  import opened Coordinator
  import opened Sessions
  import opened CoordinatorRuns
  import opened StoredPaths
  import opened Reachability
  import opened World
  import opened WorldRuns
  import opened Streaming
  import opened EngineStreaming
  import opened GraphInit
  import opened Answers

  datatype Ids = Ids(root: NodeId, a: NodeId, b: NodeId, ra: EdgeId, rb: EdgeId)

  predicate Apart(k: Ids) { k.root != k.a && k.root != k.b && k.a != k.b && k.ra != k.rb }

  function Says(text: string): Node { Node(Response, Abort, false, 0, {}, [Text(text)]) }

  function Fork(k: Ids): Graph {
    Graph(map[k.root := Node(Root, Abort, false, 0, {}, []), k.a := Says("x"), k.b := Says("y")],
          map[k.ra := Edge(k.root, k.a, "source"), k.rb := Edge(k.root, k.b, "source")],
          map[k.a := [k.ra], k.b := [k.rb]], map[k.root := [k.ra, k.rb]], k.root)
  }

  lemma ForkTables(k: Ids)
    requires Apart(k)
    ensures var g := Fork(k);
      && g.root == k.root && g.nodes.Keys == {k.root, k.a, k.b} && g.edges.Keys == {k.ra, k.rb}
      && Tail(g, k.ra) == k.root && Head(g, k.ra) == k.a && Tail(g, k.rb) == k.root && Head(g, k.rb) == k.b
      && Kind(g, k.root) == Root && Kind(g, k.a) == Response && Kind(g, k.b) == Response
      && g.nodes[k.root].assigns == {} && Template(g, k.a) == [Text("x")] && Template(g, k.b) == [Text("y")]
      && Out(g, k.root) == [k.ra, k.rb] && Out(g, k.a) == [] && Out(g, k.b) == []
    ensures forall n ::
      && Out(Fork(k), n) == (if n == k.root then [k.ra, k.rb] else [])
      && In(Fork(k), n) == (if n == k.a then [k.ra] else if n == k.b then [k.rb] else [])
    ensures Promoted(Fork(k)) && ResponseNodes(Fork(k)) == {k.a, k.b} && Elems([k.a, k.b]) == {k.a, k.b}
  {
  }

  lemma ForkIsWf(k: Ids)
    requires Apart(k)
    ensures Wf(Fork(k))
  {
    var g := Fork(k);
    ForkTables(k);
    assert k.ra in g.edges && k.rb in g.edges && forall e :: e in g.edges ==> e == k.ra || e == k.rb;
    hide Fork, Out, In, Promoted;
    forall n ensures LinkedAt(g, n) { ForkLinks(k, g, n); }
  }

  lemma ForkLinks(k: Ids, g: Graph, n: NodeId)
    requires Apart(k) && k.ra in g.edges && k.rb in g.edges && forall e :: e in g.edges ==> e == k.ra || e == k.rb
    requires Tail(g, k.ra) == k.root && Head(g, k.ra) == k.a && Tail(g, k.rb) == k.root && Head(g, k.rb) == k.b
    requires Out(g, n) == (if n == k.root then [k.ra, k.rb] else [])
    requires In(g, n) == (if n == k.a then [k.ra] else if n == k.b then [k.rb] else [])
    ensures LinkedAt(g, n)
  {
    NoDupPair(k.ra, k.rb);
    NoDupNone();
    hide Tail, Head, Out, In, NoDup;
    if n == k.root {
      assert Out(g, n) == [k.ra, k.rb] && In(g, n) == [];
    } else {
      assert Out(g, n) == [] && forall e :: e in g.edges ==> Tail(g, e) != n;
      assert forall e :: e in In(g, n) <==> e in g.edges && Head(g, e) == n;
    }
  }

  lemma NoDupPair(e: EdgeId, f: EdgeId)
    requires e != f
    ensures NoDup([e, f])
  {
    assert multiset([e, f]) == multiset{e, f};
  }

  lemma NoDupNone()
    ensures NoDup<EdgeId>([])
  {
  }

  lemma ForkIsFresh(k: Ids)
    requires Apart(k)
    ensures Wf(Fork(k)) && Fresh(Fork(k), {}, BLANK)
  {
    var g := Fork(k);
    ForkTables(k);
    ForkIsWf(k);
    hide Fork, Out, In, Wf, Promoted;
    forall n | n in g.nodes ensures SkipOk(g, BLANK, {}, n) && NodeMark(BLANK, n) != Taken {
      if !IsSource(g, n) {
        var e :| e in g.edges && Head(g, e) == n;
        assert EdgeMark(BLANK.edge, e) == Unknown;
      }
    }
  }

  // ---------- the coordinator ----------

  /** A root is nobody's blocker: both nodes can be reached for certain from the start. */
  lemma ForkPaths(k: Ids, n: NodeId, e: EdgeId)
    requires Apart(k) && ((n == k.a && e == k.ra) || (n == k.b && e == k.rb))
    ensures Wf(Fork(k)) && [] in BuildPaths(Fork(k), n)
  {
    var g := Fork(k);
    ForkTables(k);
    ForkIsWf(k);
    hide Fork, Out, In, Wf, Promoted, BuildPaths;
    StoredPathsAreSimplePaths(g, n);
    var p := [e];
    assert e in g.edges && p[..0] == [];
    OneEdgePath(g, k.root, e, n);
    var sels := TemplateSelectors(Template(g, n));
    assert p[1..] == [] && !IsBlocking(g, e, sels);
    assert BlockingEdges(g, p, sels) == [];
  }

  lemma OneEdgePath(g: Graph, a: NodeId, e: EdgeId, b: NodeId)
    requires e in g.edges && Tail(g, e) == a && Head(g, e) == b && a != b
    ensures IsSimplePath(g, a, [e], b)
  {
    assert [e][..0] == [];
  }

  function Registered(k: Ids, g: Graph): Coord
    requires Wf(g)
  {
    Coord(None, [], map[k.a := Session(k.a, [Text("x")], 0), k.b := Session(k.b, [Text("y")], 0)], {k.a, k.b},
          map[k.a := BuildPaths(g, k.a), k.b := BuildPaths(g, k.b)], Streams(map[], map[], {}), [], 0)
  }

  lemma OneOp(g: Graph, c: Coord, log: seq<Emitted>, op: Op, rest: seq<Op>)
    requires Wf(g) && Valid(c, op) && Feasible(g, Apply(g, c, op).0, rest)
    ensures Feasible(g, c, [op] + rest)
    ensures RunOps(g, c, log, [op] + rest) == RunOps(g, Apply(g, c, op).0, log + Apply(g, c, op).1, rest)
  {
    hide Apply, Valid;
    assert ([op] + rest)[0] == op && ([op] + rest)[1..] == rest;
  }

  lemma RegistersOne(g: Graph, c: Coord, n: NodeId, order: seq<NodeId>)
    requires Wf(g)
    ensures Feasible(g, c, Registrations([n] + order)) && Feasible(g, Register(g, c, n), Registrations(order))
    ensures RunOps(g, c, [], Registrations([n] + order)) == RunOps(g, Register(g, c, n), [], Registrations(order))
  {
    hide Register, RunOps, Feasible;
    RegistrationsAreFeasible(g, Register(g, c, n), order);
    OneOp(g, c, [], RegisterNode(n), Registrations(order));
    assert ([n] + order)[1..] == order;
    assert Registrations([n] + order) == [RegisterNode(n)] + Registrations(order);
    var none: seq<Emitted> := [];
    assert none + none == none;
  }

  lemma ForkRegisters(k: Ids)
    requires Apart(k)
    ensures Wf(Fork(k)) && Feasible(Fork(k), INITIAL, Registrations([k.a, k.b]))
    ensures RunOps(Fork(k), INITIAL, [], Registrations([k.a, k.b])).0 == Registered(k, Fork(k))
  {
    var g := Fork(k);
    ForkTables(k);
    ForkIsWf(k);
    hide Fork, Out, In, Wf, Promoted, BuildPaths;
    var c1 := Register(g, INITIAL, k.a);
    assert Register(g, c1, k.b) == Registered(k, g);
    hide Register;
    assert [k.a] + [k.b] == [k.a, k.b] && [k.b] + [] == [k.b];
    RegistersOne(g, INITIAL, k.a, [k.b]);
    RegistersOne(g, c1, k.b, []);
  }

  ghost predicate Quiet(c: Coord) { c.active.None? && c.waiting == [] && c.pending == map[] }

  lemma KeepsEmpty(ps: seq<seq<EdgeId>>, e: EdgeId)
    requires [] in ps
    ensures [] in RemoveFromAll(ps, e)
  {
    var i :| 0 <= i < |ps| && ps[i] == [];
    assert RemoveFromAll(ps, e)[i] == RemoveEdge(ps[i], e);
  }

  /** A session of one text begins and ends at once. */
  lemma StartsAndEnds(env: Env, c: Coord, e: EdgeId, n: NodeId, text: string)
    requires c.active.None? && c.waiting == [] && n in c.pending && c.pending[n] == Session(n, [Text(text)], 0)
    requires n in c.paths && [] in c.paths[n]
    ensures var (r, evs) := OnEdgeTakenFor(env, c, e, n);
      && r == c.(paths := c.paths[n := RemoveFromAll(c.paths[n], e)], pending := c.pending - {n},
                 started := c.started + [n], ended := c.ended + 1)
      && evs == [Emitted(c.ended, 0, false, n, [n, "answer"], text, true)]
  {
    KeepsEmpty(c.paths[n], e);
    var c1 := c.(paths := c.paths[n := RemoveFromAll(c.paths[n], e)]);
    var c2 := c1.(pending := c1.pending - {n}, started := c1.started + [n], active := Some(c.pending[n]));
    var c3 := Advance(c2);
    assert RunSegments(env, c3) == (c3, []);
    assert RunSegments(env, c2) == (c3, [TextEvent(c2, text)] + []);
    assert EndSession(env, c3) == (c3.(active := None, ended := c3.ended + 1), []);
  }

  lemma {:induction false} NothingStarts(env: Env, c: Coord, e: EdgeId, order: seq<NodeId>)
    requires Quiet(c)
    ensures var (r, evs) := OnEdgeTaken(env, c, e, order);
      Quiet(r) && r.started == c.started && r.registered == c.registered && evs == []
    decreases |order|
  {
    if order != [] { NothingStarts(env, OnEdgeTakenFor(env, c, e, order[0]).0, e, order[1..]); }
  }

  function Says1(k: nat, n: NodeId, text: string): Emitted { Emitted(k, 0, false, n, [n, "answer"], text, true) }

  lemma EdgeFor(env: Env, c: Coord, e: EdgeId, n: NodeId, order: seq<NodeId>)
    ensures var (c1, evs) := OnEdgeTakenFor(env, c, e, n);
      var (r, rest) := OnEdgeTaken(env, c1, e, order);
      OnEdgeTaken(env, c, e, [n] + order) == (r, evs + rest)
  {
    hide OnEdgeTakenFor;
    assert ([n] + order)[0] == n && ([n] + order)[1..] == order;
  }

  lemma BothStart(env: Env, c: Coord, e: EdgeId, a: NodeId, b: NodeId)
    requires a != b && c.active.None? && c.waiting == [] && c.started == [] && c.ended == 0
    requires c.pending == map[a := Session(a, [Text("x")], 0), b := Session(b, [Text("y")], 0)]
    requires a in c.paths && [] in c.paths[a] && b in c.paths && [] in c.paths[b]
    ensures var (r, evs) := OnEdgeTaken(env, c, e, [a, b]);
      && Quiet(r) && r.started == [a, b] && r.registered == c.registered && evs == [Says1(0, a, "x"), Says1(1, b, "y")]
  {
    hide OnEdgeTakenFor, OnEdgeTaken;
    StartsAndEnds(env, c, e, a, "x");
    var (c1, evs1) := OnEdgeTakenFor(env, c, e, a);
    StartsAndEnds(env, c1, e, b, "y");
    var (c2, evs2) := OnEdgeTakenFor(env, c1, e, b);
    assert c2.pending == map[] && c2.started == [a, b];
    NothingStarts(env, c2, e, []);
    NoOneLeft(env, c2, e);
    EdgeFor(env, c1, e, b, []);
    EdgeFor(env, c, e, a, [b] + []);
    assert [a] + ([b] + []) == [a, b];
    assert evs1 + (evs2 + []) == [Says1(0, a, "x"), Says1(1, b, "y")];
  }

  lemma NoOneLeft(env: Env, c: Coord, e: EdgeId)
    ensures OnEdgeTaken(env, c, e, []) == (c, [])
  {
  }

  /** The first edge starts both sessions, in the order in which the response nodes are listed. */
  lemma FirstEdge(k: Ids, env: Env)
    requires Apart(k) && Wf(Fork(k))
    ensures var (r, evs) := OnEdgeTaken(env, Registered(k, Fork(k)), k.ra, [k.a, k.b]);
      && Quiet(r) && r.started == [k.a, k.b] && r.registered == {k.a, k.b}
      && evs == [Says1(0, k.a, "x"), Says1(1, k.b, "y")]
  {
    ForkPaths(k, k.a, k.ra);
    ForkPaths(k, k.b, k.rb);
    hide Fork, Wf, BuildPaths, OnEdgeTaken, Quiet, Says1;
    BothStart(env, Registered(k, Fork(k)), k.ra, k.a, k.b);
  }

  /** What the success of the root makes the coordinator do. */
  lemma ForkSpeaks(k: Ids, env: Env)
    requires Apart(k) && Wf(Fork(k))
    ensures var ops := [Flush(env), EdgeIn(env, k.ra, [k.a, k.b]), EdgeIn(env, k.rb, [k.a, k.b])];
      && Feasible(Fork(k), Registered(k, Fork(k)), ops)
      && var (r, log) := RunOps(Fork(k), Registered(k, Fork(k)), [], ops);
         && Quiet(r) && r.started == [k.a, k.b] && r.registered == {k.a, k.b}
         && log == [Says1(0, k.a, "x"), Says1(1, k.b, "y")]
  {
    var g, order := Fork(k), [k.a, k.b];
    var c := Registered(k, g);
    var (c1, evs) := OnEdgeTaken(env, c, k.ra, order);
    FirstEdge(k, env);
    NothingStarts(env, c1, k.rb, order);
    assert multiset(order) == multiset({k.a, k.b});
    hide Fork, Wf, OnEdgeTaken, Registered, Says1, Quiet;
    TwoEdges(g, env, c, c1, k.ra, k.rb, order, evs);
  }

  /** A flush that does nothing, an edge that makes the coordinator speak and one that does not. */
  lemma TwoEdges(g: Graph, env: Env, c: Coord, c1: Coord, e: EdgeId, f: EdgeId, order: seq<NodeId>, evs: seq<Emitted>)
    requires Wf(g) && c.active.None? && multiset(order) == multiset(c.registered) && c1.registered == c.registered
    requires OnEdgeTaken(env, c, e, order) == (c1, evs) && OnEdgeTaken(env, c1, f, order).1 == []
    ensures var ops := [Flush(env), EdgeIn(env, e, order), EdgeIn(env, f, order)];
      Feasible(g, c, ops) && RunOps(g, c, [], ops) == (OnEdgeTaken(env, c1, f, order).0, evs)
  {
    hide Wf, OnEdgeTaken, Says1, Quiet;
    var none: seq<Emitted> := [];
    var e1, e2 := EdgeIn(env, e, order), EdgeIn(env, f, order);
    assert none + none == none && none + evs == evs && evs + none == evs;
    OneOp(g, c1, evs, e2, []);
    OneOp(g, c, [], e1, [e2] + []);
    OneOp(g, c, [], Flush(env), [e1] + ([e2] + []));
    assert [Flush(env)] + ([e1] + ([e2] + [])) == [Flush(env), e1, e2];
  }

  // ---------- the engine ----------

  const CALM := Flags(false, false, false, false)

  function Eng(s: State, finished: map<NodeId, string>, taken: seq<EdgeId>, held: set<NodeId>,
               events: seq<Event>): Engine
  {
    Engine(Core(s, finished, {}, {}, {}, {}, map[], taken), CALM, held, events, false, false, false)
  }

  function Both(k: Ids, queue: seq<NodeId>, executing: set<NodeId>): State {
    State(map[k.root := Taken, k.a := Taken, k.b := Taken], map[k.ra := Taken, k.rb := Taken], queue, executing)
  }

  lemma RootIsPending(k: Ids)
    requires Apart(k)
    ensures Pending(Fork(k), map[], k.root, Out(Fork(k), k.root))
  {
    ForkTables(k);
    hide Fork, Out, In, Promoted;
    assert multiset([k.ra, k.rb]) == multiset{k.ra, k.rb};
  }

  lemma LeafIsPending(k: Ids, n: NodeId)
    requires Apart(k) && n != k.root
    ensures Pending(Fork(k), Both(k, [], {}).edge, n, Out(Fork(k), n))
  {
    var m := Both(k, [], {}).edge;
    ForkTables(k);
    hide Fork, Out, In, Promoted;
    assert EdgeMark(m, k.ra) == Taken && EdgeMark(m, k.rb) == Taken;
  }

  lemma TakesBoth(k: Ids)
    requires Apart(k)
    ensures TakeEdges(Fork(k), map[], [k.ra, k.rb]) == (map[k.ra := Taken, k.rb := Taken], [k.a, k.b])
  {
    var g := Fork(k);
    ForkTables(k);
    hide Fork, Out, In, Promoted;
    assert k.ra in g.edges && k.rb in g.edges;
    assert [k.ra, k.rb][1..] == [k.rb] && [k.rb][1..] == [];
    var m1: Marks := map[k.ra := Taken];
    assert IsReady(g, m1, k.a) by { assert EdgeMark(m1, k.ra) == Taken; }
    var m2 := m1[k.rb := Taken];
    assert IsReady(g, m2, k.b) by { assert EdgeMark(m2, k.rb) == Taken; }
    assert TakeEdges(g, m2, []) == (m2, []) && [k.b] + [] == [k.b];
    assert TakeEdges(g, m1, [k.rb]) == (m2, [k.b]);
    assert [k.a] + [k.b] == [k.a, k.b];
  }

  lemma SchedulesBoth(k: Ids)
    requires Apart(k)
    ensures ScheduleAll(State(map[k.root := Taken], map[k.ra := Taken, k.rb := Taken], [], {k.root}), [k.a, k.b]) ==
      Both(k, [k.a, k.b], {k.root, k.a, k.b})
  {
    var s := State(map[k.root := Taken], map[k.ra := Taken, k.rb := Taken], [], {k.root});
    assert [k.a, k.b][1..] == [k.b] && [k.b][1..] == [];
    var s1 := Schedule(s, k.a);
    var s2 := Schedule(s1, k.b);
    assert ScheduleAll(s2, []) == s2;
    assert ScheduleAll(s1, [k.b]) == s2;
    assert s2.node == map[k.root := Taken, k.a := Taken, k.b := Taken];
    assert s2.executing == {k.root, k.a, k.b} && s2.queue == [k.a, k.b];
  }

  lemma RootCompletes(k: Ids)
    requires Apart(k) && Wf(Fork(k))
    ensures var s := State(map[k.root := Taken], map[], [], {k.root});
      && Pending(Fork(k), s.edge, k.root, Out(Fork(k), k.root))
      && HandleEvent(Fork(k), Eng(s, map[], [], {}, []).core, CALM, Succeeded(k.root, "", map[])) ==
         (Eng(Both(k, [k.a, k.b], {k.a, k.b}), map[k.root := ""], [k.ra, k.rb], {}, []).core, CALM)
  {
    var g := Fork(k);
    var s := State(map[k.root := Taken], map[], [], {k.root});
    ForkTables(k);
    RootIsPending(k);
    TakesBoth(k);
    SchedulesBoth(k);
    hide Fork, Out, In, Promoted, Wf, Pending, TakeEdges, ScheduleAll;
    var o := Done(s.(edge := map[k.ra := Taken, k.rb := Taken]), [k.a, k.b]);
    assert ProcessNodeSuccess(g, s, k.root, "") == o;
    hide ProcessNodeSuccess;
    assert {k.root, k.a, k.b} - {k.root} == {k.a, k.b};
    assert TakenList(g, k.root, "") == [k.ra, k.rb] && [] + [k.ra, k.rb] == [k.ra, k.rb];
    assert Complete(g, Eng(s, map[], [], {}, []).core, k.root, "", o, false) ==
      Eng(Both(k, [k.a, k.b], {k.a, k.b}), map[k.root := ""], [k.ra, k.rb], {}, []).core;
  }

  /** A node without out-edges just finishes. */
  lemma LeafCompletes(k: Ids, n: NodeId, executing: set<NodeId>, finished: map<NodeId, string>,
      outputs: map<string, Value>)
    requires Apart(k) && Wf(Fork(k)) && n in {k.a, k.b}
    ensures var s := Both(k, [], executing);
      && Pending(Fork(k), s.edge, n, Out(Fork(k), n))
      && HandleEvent(Fork(k), Eng(s, finished, [k.ra, k.rb], {}, []).core, CALM, Succeeded(n, "", outputs)) ==
         (Eng(Both(k, [], executing - {n}), finished[n := ""], [k.ra, k.rb], {}, []).core, CALM)
  {
    var g, s := Fork(k), Both(k, [], executing);
    ForkTables(k);
    LeafIsPending(k, n);
    hide Fork, Out, In, Promoted, Wf, Pending;
    assert TakeEdges(g, s.edge, []) == (s.edge, []);
    assert ProcessNodeSuccess(g, s, n, "") == Done(s, []);
    assert TakenList(g, n, "") == [];
    assert [k.ra, k.rb] + [] == [k.ra, k.rb];
  }

  // ---------- the run ----------

  function Answered(text: string): map<string, Value> { map["answer" := Scalar(text)] }

  function RootEvent(k: Ids): Event { Succeeded(k.root, "", map[]) }

  function LeafEvent(n: NodeId, text: string): Event { Succeeded(n, "", Answered(text)) }

  function Told(k: Ids): seq<Emitted> { [Says1(0, k.a, "x"), Says1(1, k.b, "y")] }

  ghost predicate Spoken(k: Ids, c: Coord) { Quiet(c) && c.started == [k.a, k.b] && c.registered == {k.a, k.b} }

  /** The move of a step; the response nodes are listed as `a`, `b`. */
  function By(k: Ids, step: Step): Move { Move(step, map[], [k.a, k.b]) }

  /** The worlds of the run. After the root, the coordinator has nothing more to do. */
  ghost function At(k: Ids, i: nat, pool: Pool, co: Coord): World
    requires Apart(k) && Wf(Fork(k))
  {
    var root := State(map[k.root := Taken], map[], [k.root], {k.root});
    var first, all := Registered(k, Fork(k)), {k.a, k.b};
    var fr, fb := map[k.root := ""], map[k.root := "", k.b := ""];
    var taken := [k.ra, k.rb];
    var yes := map["answer" := "y"];
    if i == 0 then World(Eng(root, map[], [], {}, []), first, pool, map[], [])
    else if i == 1 then World(Eng(root.(queue := []), map[], [], {k.root}, []), first, pool, map[], [])
    else if i == 2 then World(Eng(root.(queue := []), map[], [], {}, [RootEvent(k)]), first, pool, map[], [])
    else if i == 3 then World(Eng(Both(k, [k.a, k.b], all), fr, taken, {}, []), co, pool, map[], Told(k))
    else if i == 4 then World(Eng(Both(k, [k.b], all), fr, taken, {k.a}, []), co, pool, map[], Told(k))
    else if i == 5 then World(Eng(Both(k, [], all), fr, taken, {k.a, k.b}, []), co, pool, map[], Told(k))
    else if i == 6 then World(Eng(Both(k, [], all), fr, taken, {k.a}, [LeafEvent(k.b, "y")]), co, pool, map[], Told(k))
    else if i == 7 then World(Eng(Both(k, [], {k.a}), fb, taken, {k.a}, []), co, pool, yes, Told(k))
    else if i == 8 then World(Eng(Both(k, [], {k.a}), fb, taken, {}, [LeafEvent(k.a, "x")]), co, pool, yes, Told(k))
    else World(Eng(Both(k, [], {}), fb[k.a := ""], taken, {}, []), co, pool, map["answer" := "yx"], Told(k))
  }

  lemma ForkStarts(k: Ids)
    requires Apart(k) && Wf(Fork(k))
    ensures WorldStarted(Fork(k), BLANK, map[], [k.a, k.b]) == At(k, 0, map[], INITIAL)
  {
    ForkTables(k);
    ForkRegisters(k);
    hide Fork, Out, In, Promoted, Wf, Registered, RunOps, Feasible;
    var s := State(map[k.root := Taken], map[], [k.root], {k.root});
    assert Started(Fork(k), BLANK) == Eng(s, map[], [], {}, []) by {
      assert [] + [k.root] == [k.root] && {} + {k.root} == {k.root};
    }
  }

  lemma TakeStep(k: Ids, w: World, r: World)
    requires Apart(k) && Wf(Fork(k)) && w.e.core.s.queue != []
    requires r == w.(e := w.e.(core := w.e.core.(s := w.e.core.s.(queue := w.e.core.s.queue[1..])),
                               held := w.e.held + {w.e.core.s.queue[0]}))
    ensures WorldNext(Fork(k), w, TakeNode, map[], [k.a, k.b], r)
  {
    hide Fork, Wf;
  }

  lemma EmitStep(k: Ids, w: World, ev: Event, r: World)
    requires Apart(k) && Wf(Fork(k)) && ev.node in w.e.held && !Midway(ev)
    requires r == w.(e := w.e.(events := w.e.events + [ev], held := w.e.held - {ev.node}))
    ensures WorldNext(Fork(k), w, Emit(ev), map[], [k.a, k.b], r)
  {
    hide Fork, Wf;
  }

  lemma DispatchStep(g: Graph, w: World, ev: Event, outputs: map<string, Value>, order: seq<NodeId>, c: Core, co: Coord,
      pool: Pool, answer: map<string, string>, log: seq<Emitted>)
    requires Wf(g) && w.e.events == [ev] && !w.e.stopped && w.e.core.crashed == {} && !w.e.refused && ev.Succeeded?
    requires Pending(g, w.e.core.s.edge, ev.node, Out(g, ev.node))
    requires HandleEvent(g, w.e.core, w.e.flags, ev) == (c, w.e.flags) && multiset(order) == multiset(w.co.registered)
    requires pool == PoolAfter(g, w.e.core, ev, outputs, w.pool)
    requires answer == OutputsAfter(g, w.e.core, ev, outputs, w.outputs)
    requires Feasible(g, w.co, OpsFor(g, w.e.core, ev, pool, order))
    requires RunOps(g, w.co, w.log, OpsFor(g, w.e.core, ev, pool, order)) == (co, log)
    ensures WorldNext(g, w, Dispatch, outputs, order, World(w.e.(core := c, events := []), co, pool, answer, log))
  {
    hide Wf, Pending, HandleEvent, OpsFor, PoolAfter, OutputsAfter, Feasible, RunOps;
    assert [ev][1..] == [];
  }

  lemma RootGives(k: Ids, c: Core)
    requires Apart(k)
    ensures PoolAfter(Fork(k), c, RootEvent(k), map[], map[]) == map[]
    ensures OutputsAfter(Fork(k), c, RootEvent(k), map[], map[]) == map[]
  {
    ForkTables(k);
    hide Fork;
  }

  lemma SameNodes(k: Ids)
    requires Apart(k)
    ensures multiset([k.a, k.b]) == multiset({k.a, k.b})
  {
  }

  lemma RootWorlds(k: Ids, co: Coord, r: Core)
    requires Apart(k) && Wf(Fork(k))
    requires r == Eng(Both(k, [k.a, k.b], {k.a, k.b}), map[k.root := ""], [k.ra, k.rb], {}, []).core
    ensures var w := At(k, 2, map[], co);
      && w.e.core == Eng(State(map[k.root := Taken], map[], [], {k.root}), map[], [], {}, []).core && w.e.flags == CALM
      && w.e.events == [RootEvent(k)] && !w.e.stopped && w.e.core.crashed == {} && !w.e.refused
      && w.co == Registered(k, Fork(k)) && w.co.registered == {k.a, k.b}
      && w.pool == map[] && w.outputs == map[] && w.log == []
      && At(k, 3, map[], co) == World(w.e.(core := r, events := []), co, map[], map[], Told(k))
  {
    hide Fork, Wf, Both, Told;
  }

  /** The success of the root: both sessions speak. */
  lemma RootStep(k: Ids) returns (co: Coord)
    requires Apart(k) && Wf(Fork(k))
    ensures Spoken(k, co)
    ensures WorldNext(Fork(k), At(k, 2, map[], co), Dispatch, map[], [k.a, k.b], At(k, 3, map[], co))
  {
    var g, ev, order := Fork(k), RootEvent(k), [k.a, k.b];
    var s := State(map[k.root := Taken], map[], [], {k.root});
    var c := Eng(s, map[], [], {}, []).core;
    var r := Eng(Both(k, [k.a, k.b], {k.a, k.b}), map[k.root := ""], [k.ra, k.rb], {}, []).core;
    RootCompletes(k);
    var env := EnvOf(g, s, map[]);
    ForkSpeaks(k, env);
    RootAsks(k, c, env);
    RootGives(k, c);
    hide Fork, Wf, Pending, HandleEvent, EnvOf, OpsFor, Feasible, RunOps, Registered, Quiet, PoolAfter, OutputsAfter,
      Both;
    co := RunOps(g, Registered(k, g), [], OpsFor(g, c, ev, map[], order)).0;
    SameNodes(k);
    RootWorlds(k, co, r);
    hide At, Eng, WorldNext, Told;
    DispatchStep(g, At(k, 2, map[], co), ev, map[], order, r, co, map[], map[], Told(k));
  }

  /** ... because these are the operations that its handler asks for. */
  lemma RootAsks(k: Ids, c: Core, env: Env)
    requires Apart(k) && Wf(Fork(k)) && c.s.edge == map[] && env == EnvOf(Fork(k), c.s, map[])
    requires Pending(Fork(k), c.s.edge, k.root, Out(Fork(k), k.root))
    ensures OpsFor(Fork(k), c, RootEvent(k), map[], [k.a, k.b]) ==
      [Flush(env), EdgeIn(env, k.ra, [k.a, k.b]), EdgeIn(env, k.rb, [k.a, k.b])]
  {
    var g, order := Fork(k), [k.a, k.b];
    ForkTables(k);
    hide Fork, Out, In, Promoted, Wf, Pending, EnvOf;
    assert TakenList(g, k.root, "") == [k.ra, k.rb];
    assert EdgeOps(env, [k.ra, k.rb], order) == [EdgeIn(env, k.ra, order), EdgeIn(env, k.rb, order)];
    assert TakenOps(g, c, RootEvent(k), map[], order) == EdgeOps(env, [k.ra, k.rb], order);
  }

  lemma LeafAsks(k: Ids, c: Core, n: NodeId, text: string, pool: Pool)
    requires Apart(k) && Wf(Fork(k)) && n in {k.a, k.b} && c.s.edge == Both(k, [], {}).edge
    requires Pending(Fork(k), c.s.edge, n, Out(Fork(k), n))
    ensures OpsFor(Fork(k), c, LeafEvent(n, text), pool, [k.a, k.b]) == [Flush(EnvOf(Fork(k), c.s, pool))]
  {
    var g, order := Fork(k), [k.a, k.b];
    ForkTables(k);
    hide Fork, Out, In, Promoted, Wf, Pending, EnvOf, Both;
    assert TakenList(g, n, "") == [];
    assert TakenOps(g, c, LeafEvent(n, text), pool, order) == [];
  }

  lemma NothingToSay(g: Graph, co: Coord, log: seq<Emitted>, env: Env)
    requires Wf(g) && Quiet(co)
    ensures Feasible(g, co, [Flush(env)]) && RunOps(g, co, log, [Flush(env)]) == (co, log)
  {
    hide Wf;
    var none: seq<Op> := [];
    assert [Flush(env)] + none == [Flush(env)] && TryFlush(env, co) == (co, []);
    assert log + [] == log;
    OneOp(g, co, log, Flush(env), none);
  }

  lemma LeafMerges(before: map<string, string>, text: string)
    ensures MergeOutputs(before, Answered(text)) ==
      before["answer" := if "answer" in before then before["answer"] + text else text]
  {
  }

  lemma LeafGives(k: Ids, c: Core, n: NodeId, text: string, pool: Pool, before: map<string, string>)
    requires Apart(k) && n in {k.a, k.b}
    ensures PoolAfter(Fork(k), c, LeafEvent(n, text), map[], pool) == Store(pool, n, Answered(text))
    ensures OutputsAfter(Fork(k), c, LeafEvent(n, text), map[], before) ==
      before["answer" := if "answer" in before then before["answer"] + text else text]
  {
    ForkTables(k);
    LeafMerges(before, text);
    hide Fork, MergeOutputs, Store, Answered;
  }

  /** The success of a response node: its answer is appended, and nothing is left to say. */
  lemma LeafStep(k: Ids, w: World, n: NodeId, text: string, r: World)
    requires Apart(k) && Wf(Fork(k)) && n in {k.a, k.b} && Spoken(k, w.co)
    requires var c := w.e.core;
      && w.e == Eng(Both(k, [], c.s.executing), c.finished, [k.ra, k.rb], w.e.held, [LeafEvent(n, text)])
      && r == World(Eng(Both(k, [], c.s.executing - {n}), c.finished[n := ""], [k.ra, k.rb], w.e.held, []), w.co,
                    Store(w.pool, n, Answered(text)),
                    w.outputs["answer" := if "answer" in w.outputs then w.outputs["answer"] + text else text], w.log)
    ensures WorldNext(Fork(k), w, Dispatch, map[], [k.a, k.b], r)
  {
    var g, ev, order := Fork(k), LeafEvent(n, text), [k.a, k.b];
    LeafCompletes(k, n, w.e.core.s.executing, w.e.core.finished, Answered(text));
    LeafAsks(k, w.e.core, n, text, r.pool);
    LeafGives(k, w.e.core, n, text, w.pool, w.outputs);
    NothingToSay(g, w.co, w.log, EnvOf(g, w.e.core.s, r.pool));
    hide Fork, Wf, Pending, HandleEvent, EnvOf, OpsFor, Feasible, RunOps, Quiet, PoolAfter, OutputsAfter, Both, Store,
      Answered, WorldNext;
    SameNodes(k);
    DispatchStep(g, w, ev, map[], order, r.e.core, w.co, r.pool, r.outputs, w.log);
  }

  function PoolAt(k: Ids, i: nat): Pool {
    var p1 := Store(map[], k.b, Answered("y"));
    if i < 7 then map[] else if i < 9 then p1 else Store(p1, k.a, Answered("x"))
  }

  function StepAt(k: Ids, i: nat): Step {
    if i == 1 then Emit(RootEvent(k))
    else if i == 5 then Emit(LeafEvent(k.b, "y"))
    else if i == 7 then Emit(LeafEvent(k.a, "x"))
    else if i == 2 || i == 6 || i == 8 then Dispatch
    else TakeNode
  }

  ghost predicate Steps(k: Ids, co: Coord, i: nat)
    requires Apart(k) && Wf(Fork(k))
  {
    WorldNext(Fork(k), At(k, i, PoolAt(k, i), co), StepAt(k, i), map[], [k.a, k.b], At(k, i + 1, PoolAt(k, i + 1), co))
  }

  lemma WorkersStep(k: Ids, co: Coord, i: nat)
    requires Apart(k) && Wf(Fork(k)) && i in {0, 1, 3, 4, 5, 7}
    ensures Steps(k, co, i)
  {
    hide Fork, Wf, Registered, Store, WorldNext;
    var w, r := At(k, i, PoolAt(k, i), co), At(k, i + 1, PoolAt(k, i + 1), co);
    if i == 0 || i == 3 || i == 4 {
      assert [k.a, k.b][1..] == [k.b] && [k.b][1..] == [] && {k.a} + {k.b} == {k.a, k.b};
      TakeStep(k, w, r);
    } else {
      assert {k.a, k.b} - {k.b} == {k.a} && {k.a} - {k.a} == {};
      EmitStep(k, w, StepAt(k, i).event, r);
    }
  }

  lemma LeavesStep(k: Ids, co: Coord, i: nat)
    requires Apart(k) && Wf(Fork(k)) && Spoken(k, co) && (i == 6 || i == 8)
    ensures Steps(k, co, i)
  {
    hide Fork, Wf, Registered, Store, WorldNext, Spoken;
    var w, r := At(k, i, PoolAt(k, i), co), At(k, i + 1, PoolAt(k, i + 1), co);
    assert {k.a, k.b} - {k.b} == {k.a} && {k.a} - {k.a} == {} && "y" + "x" == "yx";
    if i == 6 { LeafStep(k, w, k.b, "y", r); } else { LeafStep(k, w, k.a, "x", r); }
  }

  lemma EveryStep(k: Ids) returns (co: Coord)
    requires Apart(k) && Wf(Fork(k))
    ensures Spoken(k, co) && forall i :: 0 <= i < 9 ==> Steps(k, co, i)
  {
    hide At, WorldNext, Spoken, Fork, Wf;
    co := RootStep(k);
    forall i | 0 <= i < 9 ensures Steps(k, co, i) {
      if i == 2 {
      } else if i == 6 || i == 8 {
        LeavesStep(k, co, i);
      } else {
        WorkersStep(k, co, i);
      }
    }
  }

  // ---------- what it ends with ----------

  lemma RootGivesNothing(k: Ids, w: World, m: Move)
    requires Apart(k) && (m.step.Dispatch? ==> w.e.events == [RootEvent(k)])
    ensures GivenBy(Fork(k), w, m) == []
  {
    ForkTables(k);
    hide Fork;
  }

  lemma LeafGivesText(k: Ids, w: World, n: NodeId, text: string)
    requires Apart(k) && n in {k.a, k.b} && w.e.events == [LeafEvent(n, text)]
    ensures GivenBy(Fork(k), w, By(k, Dispatch)) == [(n, text)]
  {
    ForkTables(k);
    hide Fork;
  }

  /** At each of the first nine states. */
  lemma GivesAt(k: Ids, co: Coord, i: nat)
    requires Apart(k) && Wf(Fork(k)) && i < 9
    ensures GivenBy(Fork(k), At(k, i, PoolAt(k, i), co), By(k, StepAt(k, i))) ==
      if i == 6 then [(k.b, "y")] else if i == 8 then [(k.a, "x")] else []
  {
    hide Fork, Wf, Registered, GivenBy, Both;
    var w := At(k, i, PoolAt(k, i), co);
    if i == 6 {
      LeafGivesText(k, w, k.b, "y");
    } else if i == 8 {
      LeafGivesText(k, w, k.a, "x");
    } else {
      RootGivesNothing(k, w, By(k, StepAt(k, i)));
    }
  }

  lemma {:induction false} GivenAt(k: Ids, trace: seq<World>, moves: seq<Move>, co: Coord, i: nat)
    requires Apart(k) && Wf(Fork(k)) && |trace| == 10 && |moves| == 9 && i <= 9
    requires forall j :: 0 <= j < 9 ==> trace[j] == At(k, j, PoolAt(k, j), co) && moves[j] == By(k, StepAt(k, j))
    ensures Given(Fork(k), trace, moves, i) ==
      if i < 7 then [] else if i < 9 then [(k.b, "y")] else [(k.b, "y"), (k.a, "x")]
    decreases i
  {
    hide Fork, Wf, At, GivenBy, StepAt, PoolAt;
    if i > 0 {
      GivenAt(k, trace, moves, co, i - 1);
      GivesAt(k, co, i - 1);
    }
  }

  lemma ToldTexts(k: Ids)
    ensures SentBy(Told(k), 0) == "x" && SentBy(Told(k), 1) == "y" && StreamText(Told(k)) == "xy"
  {
    var none: seq<Emitted> := [];
    assert Told(k)[1..] == [Says1(1, k.b, "y")] && Told(k)[1..][1..] == none;
    assert StreamText(none) == "" && SentBy(none, 0) == "" && SentBy(none, 1) == "";
    assert "x" + ("y" + "") == "xy" && "x" + ("" + "") == "x" && "" + ("y" + "") == "y";
  }

  lemma EndsSpoken(k: Ids, co: Coord)
    requires Apart(k) && Wf(Fork(k)) && Spoken(k, co)
    ensures var w := At(k, 9, PoolAt(k, 9), co);
      w.co.started == [k.a, k.b] && w.log == Told(k) && AnswerIn(w.outputs) == "yx"
  {
    hide Fork, Wf, Registered, Both, Eng, Quiet, PoolAt, Told;
  }

  lemma StartsAt(k: Ids, co: Coord)
    requires Apart(k) && Wf(Fork(k))
    ensures At(k, 0, PoolAt(k, 0), co) == WorldStarted(Fork(k), BLANK, map[], [k.a, k.b])
  {
    hide Fork, Wf, Registered, WorldStarted, Eng;
    ForkStarts(k);
  }

  lemma TheRun(k: Ids) returns (trace: seq<World>, moves: seq<Move>, co: Coord)
    requires Apart(k) && Wf(Fork(k))
    ensures EngineRun(Fork(k), {}, trace, moves) && |trace| == 10 && |moves| == 9 && Spoken(k, co)
    ensures forall i :: 0 <= i < 10 ==> trace[i] == At(k, i, PoolAt(k, i), co)
    ensures forall i :: 0 <= i < 9 ==> moves[i] == By(k, StepAt(k, i))
  {
    hide *;
    co := EveryStep(k);
    trace := seq(10, i requires 0 <= i < 10 => At(k, i, PoolAt(k, i), co));
    moves := seq(9, i requires 0 <= i < 9 => By(k, StepAt(k, i)));
    IsTheRun(k, co, trace, moves);
  }

  lemma IsTheRun(k: Ids, co: Coord, trace: seq<World>, moves: seq<Move>)
    requires Apart(k) && Wf(Fork(k)) && |trace| == 10 && |moves| == 9
    requires forall i :: 0 <= i < 10 ==> trace[i] == At(k, i, PoolAt(k, i), co)
    requires forall i :: 0 <= i < 9 ==> moves[i] == By(k, StepAt(k, i)) && Steps(k, co, i)
    ensures EngineRun(Fork(k), {}, trace, moves)
  {
    ForkIsFresh(k);
    ForkLists(k);
    StartsAt(k, co);
    hide Fork, Wf, Fresh, WorldNext, WorldStarted, At, StepAt, PoolAt, Promoted, ResponseNodes, Elems;
    forall i | 0 <= i < 9
      ensures WorldNext(Fork(k), trace[i], moves[i].step, moves[i].outputs, moves[i].order, trace[i + 1])
    {
      assert Steps(k, co, i);
    }
  }

  lemma ForkLists(k: Ids)
    requires Apart(k)
    ensures Promoted(Fork(k)) && Elems([k.a, k.b]) == ResponseNodes(Fork(k))
  {
    ForkTables(k);
  }

  /** Every node answers what it has streamed, and yet the answer of the run is not what it has
      streamed: the sessions started in one order, the nodes completed in the other. */
  lemma OrdersCanDiffer(k: Ids) returns (trace: seq<World>, moves: seq<Move>)
    requires Apart(k)
    ensures EngineRun(Fork(k), {}, trace, moves) && |trace| == 10 && |moves| == 9
    ensures var given := Given(Fork(k), trace, moves, 9);
      && Nodes(given) == [k.b, k.a] && trace[9].co.started == [k.a, k.b]
      && SaysSame(given, trace[9].co.started, trace[9].log)
      && AnswerIn(trace[9].outputs) == "yx" && StreamText(trace[9].log) == "xy"
  {
    hide Fork, Wf, EngineRun, At, Given, StepAt, PoolAt, Told, Spoken, SentBy, StreamText, AnswerIn;
    ForkIsWf(k);
    var co: Coord;
    trace, moves, co := TheRun(k);
    GivenAt(k, trace, moves, co, 9);
    ToldTexts(k);
    EndsSpoken(k, co);
  }
}
