/** The stored paths of the response coordinator: what is left of each root path, and which
    sessions that starts (coordinator.py, `on_edge_taken`). */
module StoredPaths {
  import opened Templates
  import opened VariablePool
  import opened Graphs
  import opened Paths
  import opened Coordinator
  import opened CoordinatorRuns

  /** All blocking edges of some path to `r` are among `gone`, and something has been taken. */
  ghost predicate Startable(g: Graph, gone: set<EdgeId>, r: NodeId)
    requires Wf(g)
  {
    gone != {} && exists i :: 0 <= i < |BuildPaths(g, r)| && forall e :: e in BuildPaths(g, r)[i] ==> e in gone
  }

  /** Each stored path is the original one minus the edges taken, and the session of `r` has
      been started exactly when one of them is empty. */
  ghost predicate StoredAt(g: Graph, c: Coord, gone: set<EdgeId>, r: NodeId)
    requires Wf(g)
  {
    && r in c.paths && |c.paths[r]| == |BuildPaths(g, r)|
    && (forall i :: 0 <= i < |c.paths[r]| ==> c.paths[r][i] == Minus(BuildPaths(g, r)[i], gone))
    && (r in c.pending <==> !Startable(g, gone, r))
  }

  ghost predicate Stored(g: Graph, c: Coord, gone: set<EdgeId>)
    requires Wf(g)
  {
    forall r :: r in c.registered ==> StoredAt(g, c, gone, r)
  }

  /** What one taken edge does to all response nodes. */
  ghost predicate EdgeEffect(c: Coord, r: Coord, e: EdgeId, order: seq<NodeId>) {
    && r.paths.Keys == c.paths.Keys && r.registered == c.registered && c.started <= r.started
    && (forall n :: n in c.paths ==> r.paths[n] == if n in order then RemoveFromAll(c.paths[n], e) else c.paths[n])
    && (forall n :: n in c.paths ==> (n in r.pending <==> n in c.pending && !(n in order && [] in r.paths[n])))
  }

  lemma {:induction false} OnEdgeTakenEffect(env: Env, c: Coord, e: EdgeId, order: seq<NodeId>)
    requires NoDup(order) && forall n :: n in order ==> n in c.paths
    ensures EdgeEffect(c, OnEdgeTaken(env, c, e, order).0, e, order)
    decreases |order|
  {
    if order != [] {
      var n := order[0];
      NoDupTail(order);
      var c1 := OnEdgeTakenFor(env, c, e, n).0;
      ActiveOrQueueStarts(env, c.(paths := c.paths[n := RemoveFromAll(c.paths[n], e)]), n);
      assert EdgeEffect(c, c1, e, [n]);
      OnEdgeTakenEffect(env, c1, e, order[1..]);
      assert forall k :: k in order <==> k == n || k in order[1..];
    }
  }

  /** Some path is empty once `e` is removed exactly when the edges taken so far, with `e`,
      make the node startable. */
  lemma EmptyPathIsStartable(g: Graph, c: Coord, gone: set<EdgeId>, e: EdgeId, r: NodeId)
    requires Wf(g) && StoredAt(g, c, gone, r)
    ensures var ps := RemoveFromAll(c.paths[r], e);
      && (forall i :: 0 <= i < |ps| ==> ps[i] == Minus(BuildPaths(g, r)[i], gone + {e}))
      && ([] in ps <==> Startable(g, gone + {e}, r))
  {
    hide BuildPaths, NoDup, Wf, Minus;
    var ps, all := RemoveFromAll(c.paths[r], e), BuildPaths(g, r);
    BuiltPathsAreDistinct(g, r);
    hide RemoveFromAll, RemoveEdge;
    forall i | 0 <= i < |ps|
      ensures ps[i] == Minus(all[i], gone + {e})
      ensures ps[i] == [] <==> forall d :: d in all[i] ==> d in gone + {e}
    {
      RemoveTaken(all[i], gone, e);
      MinusIsEmpty(all[i], gone + {e});
    }
    assert e in gone + {e};
    if [] in ps {
      var i :| 0 <= i < |ps| && ps[i] == [];
      assert forall d :: d in all[i] ==> d in gone + {e};
    }
  }

  lemma OrderListsPaths(c: Coord, order: seq<NodeId>)
    requires OneSessionEach(c) && multiset(order) == multiset(c.registered)
    ensures NoDup(order) && (forall n :: n in order <==> n in c.registered) && c.registered == c.paths.Keys
  {
    assert forall n :: n in order <==> multiset(order)[n] > 0;
  }

  lemma EdgeKeepsStored(g: Graph, env: Env, c: Coord, gone: set<EdgeId>, e: EdgeId, order: seq<NodeId>)
    requires Wf(g) && Stored(g, c, gone) && OneSessionEach(c) && multiset(order) == multiset(c.registered)
    ensures Stored(g, OnEdgeTaken(env, c, e, order).0, gone + {e})
    ensures c.started <= OnEdgeTaken(env, c, e, order).0.started
  {
    hide OnEdgeTaken, StoredAt, OneSessionEach, NoDup;
    var q := OnEdgeTaken(env, c, e, order).0;
    OrderListsPaths(c, order);
    OnEdgeTakenEffect(env, c, e, order);
    forall r | r in q.registered ensures StoredAt(g, q, gone + {e}, r) {
      assert StoredAt(g, c, gone, r) && r in order;
      EdgeKeepsStoredAt(g, c, q, gone, e, r);
    }
  }

  lemma EdgeKeepsStoredAt(g: Graph, c: Coord, q: Coord, gone: set<EdgeId>, e: EdgeId, r: NodeId)
    requires Wf(g) && StoredAt(g, c, gone, r) && r in q.paths && q.paths[r] == RemoveFromAll(c.paths[r], e)
    requires r in q.pending <==> r in c.pending && [] !in q.paths[r]
    ensures StoredAt(g, q, gone + {e}, r)
  {
    hide BuildPaths;
    EmptyPathIsStartable(g, c, gone, e, r);
    if Startable(g, gone, r) {
      var i :| 0 <= i < |BuildPaths(g, r)| && forall d :: d in BuildPaths(g, r)[i] ==> d in gone;
      assert forall d :: d in BuildPaths(g, r)[i] ==> d in gone + {e};
      assert Startable(g, gone + {e}, r);
    }
  }

  /** A node is registered before any edge is taken. */
  lemma RegisterKeepsStored(g: Graph, c: Coord, gone: set<EdgeId>, n: NodeId)
    requires Wf(g) && Stored(g, c, gone) && (n in c.registered || gone == {})
    ensures Stored(g, Register(g, c, n), gone)
  {
    var q := Register(g, c, n);
    forall r | r in q.registered ensures StoredAt(g, q, gone, r) {
      if r in c.registered {
        assert StoredAt(g, c, gone, r);
      } else {
        forall i | 0 <= i < |BuildPaths(g, n)| ensures Minus(BuildPaths(g, n)[i], {}) == BuildPaths(g, n)[i] {
          MinusNothing(BuildPaths(g, n)[i]);
        }
      }
    }
  }

  lemma {:induction false} MinusNothing(p: seq<EdgeId>)
    ensures Minus(p, {}) == p
    decreases |p|
  {
    if p != [] { MinusNothing(p[1..]); }
  }

  lemma FlushKeepsStored(g: Graph, env: Env, c: Coord, gone: set<EdgeId>)
    requires Wf(g) && Stored(g, c, gone)
    ensures Stored(g, TryFlush(env, c).0, gone)
  {
    TryFlushFrame(env, c);
    forall r | r in c.registered ensures StoredAt(g, TryFlush(env, c).0, gone, r) {
      assert StoredAt(g, c, gone, r);
    }
  }

  /** The edges that a sequence of operations reports. */
  function Reported(op: Op): set<EdgeId> { if op.EdgeIn? then {op.edge} else {} }

  lemma ApplyKeepsStored(g: Graph, c: Coord, gone: set<EdgeId>, op: Op)
    requires Wf(g) && Valid(c, op) && Stored(g, c, gone) && OneSessionEach(c)
    requires op.RegisterNode? ==> op.node in c.registered || gone == {}
    ensures Stored(g, Apply(g, c, op).0, gone + Reported(op))
    ensures c.started <= Apply(g, c, op).0.started
    ensures !op.EdgeIn? ==> Apply(g, c, op).0.started == c.started
    ensures !op.RegisterNode? ==> Apply(g, c, op).0.registered == c.registered
  {
    assert gone + {} == gone;
    match op
    case RegisterNode(n) => RegisterKeepsStored(g, c, gone, n);
    case Flush(env) => FlushKeepsStored(g, env, c, gone); TryFlushFrame(env, c);
    case ChunkIn(env, sel, chunk) =>
      var st := Append(c.streams, sel, chunk);
      var c1 := c.(streams := if chunk.isFinal then Close(st, sel) else st);
      forall r | r in c1.registered ensures StoredAt(g, c1, gone, r) { assert StoredAt(g, c, gone, r); }
      FlushKeepsStored(g, env, c1, gone);
      TryFlushFrame(env, c1);
    case EdgeIn(env, e, order) =>
      EdgeKeepsStored(g, env, c, gone, e, order);
      assert forall n :: n in order <==> multiset(order)[n] > 0;
      OnEdgeTakenEffect(env, c, e, order);
  }

  /** The edges of the path that leave nodes which decide `r` are among `gone`. */
  ghost predicate BlockersGone(g: Graph, gone: set<EdgeId>, r: NodeId, p: seq<EdgeId>) {
    forall e :: e in p && Decides(g, Tail(g, e), r) ==> e in gone
  }

  lemma GoneMeansBlockersGone(g: Graph, gone: set<EdgeId>, r: NodeId, p: seq<EdgeId>)
    ensures BlockersGone(g, gone, r, p) <==>
      forall e :: e in BlockingEdges(g, p, TemplateSelectors(Template(g, r))) ==> e in gone
  {
    hide Decides, IsBlocking, TemplateSelectors;
    forall e ensures IsBlocking(g, e, TemplateSelectors(Template(g, r))) <==> Decides(g, Tail(g, e), r) {
      BlocksIffDecides(g, e, r);
    }
  }

  /** The stored path at `i` comes from a simple path, and each simple path is stored. */
  lemma StoredPathsAreSimplePaths(g: Graph, r: NodeId)
    requires Wf(g) && r != g.root
    ensures forall i :: 0 <= i < |BuildPaths(g, r)| ==>
      exists p ::
        IsSimplePath(g, g.root, p, r) && BuildPaths(g, r)[i] == BlockingEdges(g, p, TemplateSelectors(Template(g, r)))
    ensures forall p :: IsSimplePath(g, g.root, p, r) ==>
      BlockingEdges(g, p, TemplateSelectors(Template(g, r))) in BuildPaths(g, r)
  {
    hide IsSimplePath, FindFrom, TemplateSelectors, IsBlocking;
    var ps := FindFrom(g, g.root, r, [], {});
    FindAllPathsIsExact(g, r);
    forall i | 0 <= i < |BuildPaths(g, r)|
      ensures exists p ::
        IsSimplePath(g, g.root, p, r) && BuildPaths(g, r)[i] == BlockingEdges(g, p, TemplateSelectors(Template(g, r)))
    {
      assert ps[i] in ps;
      assert IsSimplePath(g, g.root, ps[i], r)
        && BuildPaths(g, r)[i] == BlockingEdges(g, ps[i], TemplateSelectors(Template(g, r)));
    }
    forall p | IsSimplePath(g, g.root, p, r)
      ensures BlockingEdges(g, p, TemplateSelectors(Template(g, r))) in BuildPaths(g, r)
    {
      assert p in ps;
      var i :| 0 <= i < |ps| && ps[i] == p;
      assert BuildPaths(g, r)[i] == BlockingEdges(g, p, TemplateSelectors(Template(g, r)));
    }
  }

  /** Startable means: on some simple path from the root all edges out of deciding nodes have been
      taken, and no other edge is waited for. */
  lemma StartableMeansPath(g: Graph, gone: set<EdgeId>, r: NodeId)
    requires Wf(g) && r != g.root
    ensures Startable(g, gone, r) <==>
      gone != {} && exists p :: IsSimplePath(g, g.root, p, r) && BlockersGone(g, gone, r, p)
  {
    hide IsSimplePath, BuildPaths, TemplateSelectors, BlockingEdges, BlockersGone;
    StoredPathsAreSimplePaths(g, r);
    if Startable(g, gone, r) {
      var i :| 0 <= i < |BuildPaths(g, r)| && forall e :: e in BuildPaths(g, r)[i] ==> e in gone;
      var p :| IsSimplePath(g, g.root, p, r) && BuildPaths(g, r)[i] ==
        BlockingEdges(g, p, TemplateSelectors(Template(g, r)));
      GoneMeansBlockersGone(g, gone, r, p);
    }
    if gone != {} && exists p :: IsSimplePath(g, g.root, p, r) && BlockersGone(g, gone, r, p) {
      var p :| IsSimplePath(g, g.root, p, r) && BlockersGone(g, gone, r, p);
      GoneMeansBlockersGone(g, gone, r, p);
      var i :| 0 <= i < |BuildPaths(g, r)| && BuildPaths(g, r)[i] ==
        BlockingEdges(g, p, TemplateSelectors(Template(g, r)));
    }
  }
}
