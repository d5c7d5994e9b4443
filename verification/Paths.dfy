/** The paths that the response coordinator enumerates (coordinator.py): all simple paths from
    the root to a response node, reduced to their blocking edges. */
module Paths {
  import opened Templates
  import opened Graphs
  import opened Walks

  // ---------- enumeration ----------

  /** `_find_all_paths`, with the path so far and the nodes already visited. */
  function FindFrom(g: Graph, cur: NodeId, target: NodeId, path: seq<EdgeId>, visited: set<NodeId>): seq<seq<EdgeId>>
    requires Wf(g) && cur in g.nodes && cur !in visited
    decreases |g.nodes.Keys - visited|, 0, 0
  {
    if cur == target then [path]
    else
      assert LinkedAt(g, cur);
      assert g.nodes.Keys - (visited + {cur}) < g.nodes.Keys - visited;
      FewerNodes(g.nodes.Keys, visited, cur);
      FindOver(g, target, path, visited + {cur}, Out(g, cur))
  }

  /** Its loop over out-edges. */
  function FindOver(g: Graph, target: NodeId, path: seq<EdgeId>, visited: set<NodeId>,
      es: seq<EdgeId>): seq<seq<EdgeId>>
    requires Wf(g) && forall e :: e in es ==> e in g.edges
    decreases |g.nodes.Keys - visited|, 1, |es|
  {
    if es == [] then []
    else
      assert es[0] in es;
      (if Head(g, es[0]) in visited then [] else FindFrom(g, Head(g, es[0]), target, path + [es[0]], visited))
        + FindOver(g, target, path, visited, es[1..])
  }

  lemma FewerNodes(nodes: set<NodeId>, visited: set<NodeId>, n: NodeId)
    requires n in nodes && n !in visited
    ensures |nodes - (visited + {n})| < |nodes - visited|
  {
    assert nodes - visited == (nodes - (visited + {n})) + {n};
  }

  // ---------- simple walks ----------

  /** The node before step `i` of the walk. */
  function NodeAt(g: Graph, a: NodeId, p: seq<EdgeId>, i: nat): NodeId
    requires i <= |p|
  {
    if i == 0 then a else Head(g, p[i - 1])
  }

  /** No node is visited twice. */
  ghost predicate Distinct(g: Graph, a: NodeId, p: seq<EdgeId>) {
    forall i, j :: 0 <= i < j <= |p| ==> NodeAt(g, a, p, i) != NodeAt(g, a, p, j)
  }

  ghost predicate Avoids(g: Graph, a: NodeId, p: seq<EdgeId>, visited: set<NodeId>) {
    forall i :: 0 <= i <= |p| ==> NodeAt(g, a, p, i) !in visited
  }

  ghost predicate IsSimplePath(g: Graph, a: NodeId, p: seq<EdgeId>, b: NodeId) {
    IsWalk(g, a, p, b) && Distinct(g, a, p)
  }

  lemma {:induction false} WalkCons(g: Graph, a: NodeId, p: seq<EdgeId>, b: NodeId)
    requires p != []
    ensures IsWalk(g, a, p, b) <==> p[0] in g.edges && Tail(g, p[0]) == a && IsWalk(g, Head(g, p[0]), p[1..], b)
    decreases |p|
  {
    if |p| == 1 {
      assert p[..0] == [] == p[1..];
    } else {
      var last := p[|p| - 1];
      var q := p[1..];
      assert p[..|p| - 1][1..] == q[..|q| - 1] && q[|q| - 1] == last;
      assert p[..|p| - 1][0] == p[0];
      if last in g.edges { WalkCons(g, a, p[..|p| - 1], Tail(g, last)); }
    }
  }

  /** A walk whose nodes are distinct and avoid `visited`, from its front. */
  lemma DistinctCons(g: Graph, a: NodeId, p: seq<EdgeId>, visited: set<NodeId>)
    requires p != []
    ensures Distinct(g, a, p) && Avoids(g, a, p, visited) <==>
      a !in visited && Distinct(g, Head(g, p[0]), p[1..]) && Avoids(g, Head(g, p[0]), p[1..], visited + {a})
  {
    var h, q := Head(g, p[0]), p[1..];
    assert forall i :: 0 <= i <= |q| ==> NodeAt(g, h, q, i) == NodeAt(g, a, p, i + 1);
    if Distinct(g, a, p) && Avoids(g, a, p, visited) {
      assert NodeAt(g, a, p, 0) == a;
      forall i | 0 <= i <= |q| ensures NodeAt(g, h, q, i) !in visited + {a} {
        assert NodeAt(g, a, p, 0) != NodeAt(g, a, p, i + 1);
      }
    }
    if a !in visited && Distinct(g, h, q) && Avoids(g, h, q, visited + {a}) {
      forall i | 0 <= i <= |p| ensures NodeAt(g, a, p, i) !in visited {
        if i > 0 { assert NodeAt(g, h, q, i - 1) !in visited + {a}; }
      }
      forall i, j | 0 <= i < j <= |p| ensures NodeAt(g, a, p, i) != NodeAt(g, a, p, j) {
        assert NodeAt(g, h, q, j - 1) !in visited + {a};
        if i > 0 { assert NodeAt(g, h, q, i - 1) != NodeAt(g, h, q, j - 1); }
      }
    }
  }

  /** `path` extended by a simple path from `cur` to `target` that avoids `visited`. */
  ghost predicate Extends(g: Graph, cur: NodeId, target: NodeId, path: seq<EdgeId>, visited: set<NodeId>,
      p: seq<EdgeId>) {
    && |path| <= |p| && p[..|path|] == path
    && IsSimplePath(g, cur, p[|path|..], target) && Avoids(g, cur, p[|path|..], visited)
  }

  ghost predicate ExtendsBy(g: Graph, target: NodeId, path: seq<EdgeId>, visited: set<NodeId>, e: EdgeId,
      p: seq<EdgeId>) {
    Head(g, e) !in visited && Extends(g, Head(g, e), target, path + [e], visited, p)
  }

  lemma ExtendsForth(g: Graph, cur: NodeId, target: NodeId, path: seq<EdgeId>, visited: set<NodeId>,
      p: seq<EdgeId>) returns (e: EdgeId)
    requires Wf(g) && cur != target && Extends(g, cur, target, path, visited, p)
    ensures e in Out(g, cur) && ExtendsBy(g, target, path, visited + {cur}, e, p)
  {
    hide NodeAt, Distinct, Avoids, IsWalk;
    var q := p[|path|..];
    OnlyTheEmptyWalk(g, cur, target);
    WalkCons(g, cur, q, target);
    DistinctCons(g, cur, q, visited);
    e := q[0];
    assert p[..|path| + 1] == path + [e] && p[|path| + 1..] == q[1..];
    OutOfTail(g, e);
    StartIsVisited(g, Head(g, e), q[1..], visited + {cur});
  }

  lemma OnlyTheEmptyWalk(g: Graph, cur: NodeId, target: NodeId)
    ensures IsWalk(g, cur, [], target) <==> cur == target
  {
  }

  lemma OutOfTail(g: Graph, e: EdgeId)
    requires Wf(g)
    ensures forall n :: e in Out(g, n) <==> e in g.edges && Tail(g, e) == n
  {
    forall n ensures e in Out(g, n) <==> e in g.edges && Tail(g, e) == n { assert LinkedAt(g, n); }
  }

  lemma StartIsVisited(g: Graph, a: NodeId, p: seq<EdgeId>, visited: set<NodeId>)
    requires Avoids(g, a, p, visited)
    ensures a !in visited
  {
    assert NodeAt(g, a, p, 0) == a;
  }

  lemma ExtendsBack(g: Graph, cur: NodeId, target: NodeId, path: seq<EdgeId>, visited: set<NodeId>, e: EdgeId,
      p: seq<EdgeId>)
    requires Wf(g) && cur !in visited && e in Out(g, cur) && ExtendsBy(g, target, path, visited + {cur}, e, p)
    ensures Extends(g, cur, target, path, visited, p)
  {
    hide NodeAt, Distinct, Avoids, IsWalk;
    var q := p[|path|..];
    assert p[..|path| + 1] == path + [e];
    assert q[0] == e && q[1..] == p[|path| + 1..];
    assert p[..|path|] == path;
    OutOfTail(g, e);
    WalkCons(g, cur, q, target);
    DistinctCons(g, cur, q, visited);
  }

  /** A path that goes on from `cur` starts with one of its out-edges. */
  lemma ExtendsStep(g: Graph, cur: NodeId, target: NodeId, path: seq<EdgeId>, visited: set<NodeId>, p: seq<EdgeId>)
    requires Wf(g) && cur in g.nodes && cur !in visited && cur != target
    ensures Extends(g, cur, target, path, visited, p) <==>
      exists e :: e in Out(g, cur) && ExtendsBy(g, target, path, visited + {cur}, e, p)
  {
    hide Extends, ExtendsBy;
    if Extends(g, cur, target, path, visited, p) {
      var e := ExtendsForth(g, cur, target, path, visited, p);
    }
    if e :| e in Out(g, cur) && ExtendsBy(g, target, path, visited + {cur}, e, p) {
      ExtendsBack(g, cur, target, path, visited, e, p);
    }
  }

  /** `_find_all_paths` is sound and complete. */
  lemma {:induction false} FindFromFinds(g: Graph, cur: NodeId, target: NodeId, path: seq<EdgeId>,
      visited: set<NodeId>, p: seq<EdgeId>)
    requires Wf(g) && cur in g.nodes && cur !in visited
    ensures p in FindFrom(g, cur, target, path, visited) <==> Extends(g, cur, target, path, visited, p)
    decreases |g.nodes.Keys - visited|, 0, 0
  {
    if cur == target {
      OnlyTheEmptyPath(g, cur, p[if |path| <= |p| then |path| else |p|..]);
      if Extends(g, cur, target, path, visited, p) { assert p == p[..|path|] + p[|path|..]; }
      if p == path { assert p[..|path|] == path && p[|path|..] == []; }
    } else {
      assert LinkedAt(g, cur);
      FewerNodes(g.nodes.Keys, visited, cur);
      FindOverFinds(g, target, path, visited + {cur}, Out(g, cur), p);
      ExtendsStep(g, cur, target, path, visited, p);
    }
  }

  lemma OnlyTheEmptyPath(g: Graph, a: NodeId, q: seq<EdgeId>)
    ensures IsSimplePath(g, a, q, a) <==> q == []
  {
    if q != [] && IsWalk(g, a, q, a) {
      assert NodeAt(g, a, q, 0) == a == NodeAt(g, a, q, |q|);
    }
  }

  lemma {:induction false} FindOverFinds(g: Graph, target: NodeId, path: seq<EdgeId>, visited: set<NodeId>,
      es: seq<EdgeId>, p: seq<EdgeId>)
    requires Wf(g) && forall e :: e in es ==> e in g.edges
    ensures p in FindOver(g, target, path, visited, es) <==>
      exists e :: e in es && ExtendsBy(g, target, path, visited, e, p)
    decreases |g.nodes.Keys - visited|, 1, |es|
  {
    if es != [] {
      assert es[0] in es && forall e :: e in es <==> e == es[0] || e in es[1..];
      if Head(g, es[0]) !in visited {
        FindFromFinds(g, Head(g, es[0]), target, path + [es[0]], visited, p);
      }
      FindOverFinds(g, target, path, visited, es[1..], p);
    }
  }

  lemma NextEdge(g: Graph, target: NodeId, path: seq<EdgeId>, visited: set<NodeId>, e: EdgeId, p: seq<EdgeId>)
    requires ExtendsBy(g, target, path, visited, e, p)
    ensures |p| > |path| && p[|path|] == e
  {
    assert p[|path|] == p[..|path| + 1][|path|] == (path + [e])[|path|];
  }

  /** ... and lists no path twice. */
  lemma {:induction false} FindFromOnce(g: Graph, cur: NodeId, target: NodeId, path: seq<EdgeId>,
      visited: set<NodeId>, p: seq<EdgeId>)
    requires Wf(g) && cur in g.nodes && cur !in visited
    ensures multiset(FindFrom(g, cur, target, path, visited))[p] <= 1
    decreases |g.nodes.Keys - visited|, 0, 0
  {
    if cur != target {
      assert LinkedAt(g, cur);
      FewerNodes(g.nodes.Keys, visited, cur);
      FindOverOnce(g, target, path, visited + {cur}, Out(g, cur), p);
    }
  }

  lemma {:induction false} FindOverOnce(g: Graph, target: NodeId, path: seq<EdgeId>, visited: set<NodeId>,
      es: seq<EdgeId>, p: seq<EdgeId>)
    requires Wf(g) && NoDup(es) && forall e :: e in es ==> e in g.edges
    ensures multiset(FindOver(g, target, path, visited, es))[p] <= 1
    decreases |g.nodes.Keys - visited|, 1, |es|
  {
    if es != [] {
      NoDupTail(es);
      assert es[0] in es;
      var rest := FindOver(g, target, path, visited, es[1..]);
      FindOverOnce(g, target, path, visited, es[1..], p);
      if Head(g, es[0]) in visited {
        assert [] + rest == rest;
      } else {
        var here := FindFrom(g, Head(g, es[0]), target, path + [es[0]], visited);
        FindFromOnce(g, Head(g, es[0]), target, path + [es[0]], visited, p);
        EdgesDiffer(g, target, path, visited, es, p);
        OnceEach(here, rest, p);
      }
    }
  }

  lemma OnceEach<T>(xs: seq<T>, ys: seq<T>, x: T)
    requires multiset(xs)[x] <= 1 && multiset(ys)[x] <= 1 && !(x in xs && x in ys)
    ensures multiset(xs + ys)[x] <= 1
  {
    assert multiset(xs + ys) == multiset(xs) + multiset(ys);
    assert x in xs <==> multiset(xs)[x] > 0;
    assert x in ys <==> multiset(ys)[x] > 0;
  }

  /** Paths that go on through different edges are different. */
  lemma EdgesDiffer(g: Graph, target: NodeId, path: seq<EdgeId>, visited: set<NodeId>, es: seq<EdgeId>, p: seq<EdgeId>)
    requires Wf(g) && es != [] && es[0] !in es[1..] && (forall e :: e in es ==> e in g.edges)
    requires Head(g, es[0]) !in visited
    requires es[0] in g.edges
    ensures p in FindFrom(g, Head(g, es[0]), target, path + [es[0]], visited) ==>
      p !in FindOver(g, target, path, visited, es[1..])
  {
    FindFromFinds(g, Head(g, es[0]), target, path + [es[0]], visited, p);
    FindOverFinds(g, target, path, visited, es[1..], p);
    forall e | ExtendsBy(g, target, path, visited, e, p) ensures |p| > |path| && p[|path|] == e {
      NextEdge(g, target, path, visited, e, p);
    }
  }

  /** `_find_all_paths(root, target)` returns exactly the simple paths from the root to the
      target, each once. */
  lemma FindAllPathsIsExact(g: Graph, target: NodeId)
    requires Wf(g)
    ensures forall p :: p in FindFrom(g, g.root, target, [], {}) <==> IsSimplePath(g, g.root, p, target)
    ensures NoDup(FindFrom(g, g.root, target, [], {}))
  {
    forall p ensures p in FindFrom(g, g.root, target, [], {}) <==> IsSimplePath(g, g.root, p, target) {
      FindFromFinds(g, g.root, target, [], {}, p);
      assert p[0..] == p;
    }
    forall p ensures multiset(FindFrom(g, g.root, target, [], {}))[p] <= 1 {
      FindFromOnce(g, g.root, target, [], {}, p);
    }
  }

  // ---------- blocking edges ----------

  function FirstTwo(sel: Selector): Selector { sel[..if |sel| < 2 then |sel| else 2] }

  /** `_get_response_variable_selectors`: the first two parts of every selector of the template. */
  function TemplateSelectors(template: seq<Segment>): set<Selector> {
    set s | s in template && s.Variable? :: FirstTwo(s.selector)
  }

  /** `_is_blocking_edge`. */
  predicate IsBlocking(g: Graph, e: EdgeId, selectors: set<Selector>) {
    var n := Tail(g, e);
    Kind(g, n) == Branch || Kind(g, n) == Container || Kind(g, n) == Response ||
    (n in g.nodes && g.nodes[n].assigns * selectors != {})
  }

  /** `_get_blocking_edges`. */
  function BlockingEdges(g: Graph, p: seq<EdgeId>, selectors: set<Selector>): (r: seq<EdgeId>)
    ensures forall e :: e in r <==> e in p && IsBlocking(g, e, selectors)
    ensures multiset(r) <= multiset(p)
    decreases |p|
  {
    if p == [] then []
    else
      assert p == [p[0]] + p[1..];
      if IsBlocking(g, p[0], selectors) then [p[0]] + BlockingEdges(g, p[1..], selectors)
      else BlockingEdges(g, p[1..], selectors)
  }

  function AllBlockingEdges(g: Graph, ps: seq<seq<EdgeId>>, selectors: set<Selector>): (r: seq<seq<EdgeId>>)
    ensures |r| == |ps| && forall i :: 0 <= i < |ps| ==> r[i] == BlockingEdges(g, ps[i], selectors)
    decreases |ps|
  {
    if ps == [] then [] else [BlockingEdges(g, ps[0], selectors)] + AllBlockingEdges(g, ps[1..], selectors)
  }

  function Template(g: Graph, n: NodeId): seq<Segment> { if n in g.nodes then g.nodes[n].template else [] }

  /** The first two parts of a selector in the template. */
  ghost predicate Refers(t: seq<Segment>, sel: Selector) {
    exists seg :: seg in t && seg.Variable? && sel <= seg.selector && (|sel| == 2 || (|sel| < 2 && sel == seg.selector))
  }

  /** Nodes that decide whether or with what the response node answers: branches, containers,
      response nodes before it, and those that assign a variable of its template. */
  ghost predicate Decides(g: Graph, n: NodeId, r: NodeId) {
    || Kind(g, n) in {Branch, Container, Response}
    || (n in g.nodes && exists sel :: sel in g.nodes[n].assigns && Refers(Template(g, r), sel))
  }

  lemma SelectorsAreReferred(t: seq<Segment>, sel: Selector)
    ensures sel in TemplateSelectors(t) <==> Refers(t, sel)
  {
    if Refers(t, sel) {
      var seg :|
        seg in t && seg.Variable? && sel <= seg.selector && (|sel| == 2 || (|sel| < 2 && sel == seg.selector));
      assert FirstTwo(seg.selector) == sel;
    }
    if sel in TemplateSelectors(t) {
      var seg :| seg in t && seg.Variable? && FirstTwo(seg.selector) == sel;
    }
  }

  /** The edges that hold a session back are those out of the nodes that decide it. */
  lemma BlocksIffDecides(g: Graph, e: EdgeId, r: NodeId)
    ensures IsBlocking(g, e, TemplateSelectors(Template(g, r))) <==> Decides(g, Tail(g, e), r)
  {
    hide TemplateSelectors, Refers, Template;
    var n, t := Tail(g, e), Template(g, r);
    forall sel ensures sel in TemplateSelectors(t) <==> Refers(t, sel) { SelectorsAreReferred(t, sel); }
    if n in g.nodes {
      var both := g.nodes[n].assigns * TemplateSelectors(t);
      if both != {} {
        var sel :| sel in both;
      }
      if sel :| sel in g.nodes[n].assigns && Refers(t, sel) { assert sel in both; }
    }
  }

  /** `_build_paths_map`. */
  function BuildPaths(g: Graph, r: NodeId): seq<seq<EdgeId>>
    requires Wf(g)
  {
    if g.root == r then [[]]
    else AllBlockingEdges(g, FindFrom(g, g.root, r, [], {}), TemplateSelectors(Template(g, r)))
  }

  // ---------- stored paths ----------

  /** `Path.remove_edge`: deletes the first occurrence. */
  function RemoveEdge(p: seq<EdgeId>, e: EdgeId): seq<EdgeId>
    decreases |p|
  {
    if p == [] then [] else if p[0] == e then p[1..] else [p[0]] + RemoveEdge(p[1..], e)
  }

  /** What is left of a path once the edges `gone` have been taken. */
  function Minus(p: seq<EdgeId>, gone: set<EdgeId>): seq<EdgeId>
    decreases |p|
  {
    if p == [] then [] else if p[0] in gone then Minus(p[1..], gone) else [p[0]] + Minus(p[1..], gone)
  }

  lemma {:induction false} MinusIsEmpty(p: seq<EdgeId>, gone: set<EdgeId>)
    ensures Minus(p, gone) == [] <==> forall e :: e in p ==> e in gone
    decreases |p|
  {
    if p != [] {
      assert forall e :: e in p <==> e == p[0] || e in p[1..];
      MinusIsEmpty(p[1..], gone);
    }
  }

  lemma {:induction false} MinusAbsent(p: seq<EdgeId>, gone: set<EdgeId>, e: EdgeId)
    requires e !in p
    ensures Minus(p, gone + {e}) == Minus(p, gone) && RemoveEdge(Minus(p, gone), e) == Minus(p, gone)
    decreases |p|
  {
    if p != [] {
      assert p[0] in p && forall d :: d in p[1..] ==> d in p;
      MinusAbsent(p[1..], gone, e);
    }
  }

  /** Removing an edge when it is taken keeps a stored path equal to its original edges minus
      those taken so far. This needs the edges to be distinct, which simple paths grant. */
  lemma {:induction false} RemoveTaken(p: seq<EdgeId>, gone: set<EdgeId>, e: EdgeId)
    requires NoDup(p)
    ensures RemoveEdge(Minus(p, gone), e) == Minus(p, gone + {e})
    decreases |p|
  {
    if p != [] {
      NoDupTail(p);
      if p[0] == e {
        MinusAbsent(p[1..], gone, e);
        if e in gone {
          assert gone + {e} == gone;
        }
      } else {
        RemoveTaken(p[1..], gone, e);
      }
    }
  }

  /** The edges of a simple path are distinct, because their heads are. */
  lemma DistinctEdges(g: Graph, a: NodeId, p: seq<EdgeId>)
    requires Distinct(g, a, p)
    ensures NoDup(p)
    decreases |p|
  {
    forall e ensures multiset(p)[e] <= 1 {
      OccursOnce(g, a, p, e);
    }
  }

  lemma {:induction false} OccursOnce(g: Graph, a: NodeId, p: seq<EdgeId>, e: EdgeId)
    requires Distinct(g, a, p)
    ensures multiset(p)[e] <= 1
    decreases |p|
  {
    if p != [] {
      var q := p[..|p| - 1];
      assert p == q + [p[|p| - 1]];
      assert forall i :: 0 <= i <= |q| ==> NodeAt(g, a, q, i) == NodeAt(g, a, p, i);
      OccursOnce(g, a, q, e);
      forall i | 0 <= i < |q| ensures q[i] != p[|p| - 1] {
        assert NodeAt(g, a, p, i + 1) != NodeAt(g, a, p, |p|);
      }
      assert e in q <==> multiset(q)[e] > 0;
    }
  }

  lemma NoDupSub<T(!new)>(xs: seq<T>, ys: seq<T>)
    requires NoDup(ys) && multiset(xs) <= multiset(ys)
    ensures NoDup(xs)
  {
  }

  /** Every stored path of a response node has distinct edges. */
  lemma BuiltPathsAreDistinct(g: Graph, r: NodeId)
    requires Wf(g)
    ensures forall i :: 0 <= i < |BuildPaths(g, r)| ==> NoDup(BuildPaths(g, r)[i])
  {
    if g.root != r {
      var ps := FindFrom(g, g.root, r, [], {});
      FindAllPathsIsExact(g, r);
      forall i | 0 <= i < |ps| ensures NoDup(BuildPaths(g, r)[i]) {
        assert ps[i] in ps;
        DistinctEdges(g, g.root, ps[i]);
        NoDupSub(BuildPaths(g, r)[i], ps[i]);
      }
    } else {
      assert BuildPaths(g, r) == [[]];
    }
  }
}
