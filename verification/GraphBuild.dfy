/** Building the edge table and the two adjacency tables from a configuration (graph.py,
    `_build_edges`). */
module GraphBuild {
  import opened Templates
  import opened Graphs
  import opened Scheduler

  /** A handle that is absent, a string, or something else. */
  datatype HandleConfig = Absent | Named(handle: string) | Malformed

  /** The source and the target are None when they are absent or not strings. */
  datatype EdgeConfig = EdgeConfig(source: Option<string>, target: Option<string>, handle: HandleConfig)

  // ---------- edge ids ----------

  function Digits(k: nat): (s: string)
    ensures |s| >= 1 && (k >= 10 ==> |s| >= 2)
  {
    if k < 10 then [Digit(k)] else Digits(k / 10) + [Digit(k % 10)]
  }

  function Digit(k: nat): char
    requires k < 10
  {
    '0' + k as char
  }

  /** `f"edge_{k}"`. */
  function Id(k: nat): EdgeId { "edge_" + Digits(k) }

  lemma {:induction false} DigitsInjective(a: nat, b: nat)
    requires Digits(a) == Digits(b)
    ensures a == b
    decreases a
  {
    if a >= 10 && b >= 10 {
      var x, y := Digits(a / 10), Digits(b / 10);
      assert Digits(a)[..|x|] == x && Digits(b)[..|y|] == y && |x| == |y|;
      assert Digits(a)[|x|] == Digit(a % 10) && Digits(b)[|y|] == Digit(b % 10);
      DigitsInjective(a / 10, b / 10);
    } else {
      assert a < 10 && b < 10;
      assert Digits(a)[0] == Digit(a) && Digits(b)[0] == Digit(b);
    }
  }

  lemma IdInjective(a: nat, b: nat)
    ensures Id(a) == Id(b) <==> a == b
  {
    if Id(a) == Id(b) {
      assert Id(a)[5..] == Digits(a) && Id(b)[5..] == Digits(b);
      DigitsInjective(a, b);
    }
  }

  // ---------- the tables ----------

  predicate HasEnds(c: EdgeConfig) { c.source.Some? && c.target.Some? }

  predicate Kept(c: EdgeConfig) { HasEnds(c) && !c.handle.Malformed? }

  function EdgeOf(c: EdgeConfig): Edge
    requires Kept(c)
  {
    Edge(c.source.value, c.target.value, if c.handle.Absent? then "source" else c.handle.handle)
  }

  /** A number is used up by every configuration with two ends, also when its handle is
      malformed and no edge is built. */
  function Numbered(cs: seq<EdgeConfig>): nat
    decreases |cs|
  {
    if cs == [] then 0 else Numbered(cs[..|cs| - 1]) + if HasEnds(cs[|cs| - 1]) then 1 else 0
  }

  /** The id of the edge that configuration `i` yields. */
  function IdOf(cs: seq<EdgeConfig>, i: nat): EdgeId
    requires i < |cs|
  {
    Id(Numbered(cs[..i]))
  }

  function ListAt(m: map<NodeId, seq<EdgeId>>, n: NodeId): seq<EdgeId> { if n in m then m[n] else [] }

  function End(e: Edge, head: bool): NodeId { if head then e.head else e.tail }

  /** The edges are those of the kept configurations, under their ids. */
  ghost predicate EdgesListed(cs: seq<EdgeConfig>, edges: map<EdgeId, Edge>) {
    && (forall i :: 0 <= i < |cs| && Kept(cs[i]) ==> IdOf(cs, i) in edges && edges[IdOf(cs, i)] == EdgeOf(cs[i]))
    && (forall e :: e in edges ==> exists i :: 0 <= i < |cs| && Kept(cs[i]) && e == IdOf(cs, i))
  }

  /** Each node lists exactly the edges that have it at this end. */
  ghost predicate Listed(m: map<NodeId, seq<EdgeId>>, edges: map<EdgeId, Edge>, head: bool) {
    forall n, e :: e in ListAt(m, n) <==> e in edges && End(edges[e], head) == n
  }

  ghost predicate ListedOnce(m: map<NodeId, seq<EdgeId>>) { forall n :: NoDup(ListAt(m, n)) }

  ghost predicate Tables(cs: seq<EdgeConfig>, edges: map<EdgeId, Edge>, ins: map<NodeId, seq<EdgeId>>,
      outs: map<NodeId, seq<EdgeId>>) {
    EdgesListed(cs, edges) && Listed(ins, edges, true) && Listed(outs, edges, false) && ListedOnce(outs)
  }

  lemma {:induction false} NumberedGrows(cs: seq<EdgeConfig>, i: nat)
    requires i <= |cs|
    ensures Numbered(cs[..i]) <= Numbered(cs)
    ensures i < |cs| && HasEnds(cs[i]) ==> Numbered(cs[..i]) < Numbered(cs)
    decreases |cs| - i
  {
    if i < |cs| {
      assert cs[..i + 1][..i] == cs[..i];
      NumberedGrows(cs, i + 1);
    } else {
      assert cs[..i] == cs;
    }
  }

  /** Ids are new: every id in the tables belongs to a smaller number. */
  lemma NextIdIsNew(cs: seq<EdgeConfig>, edges: map<EdgeId, Edge>)
    requires EdgesListed(cs, edges)
    ensures Id(Numbered(cs)) !in edges
  {
    if Id(Numbered(cs)) in edges {
      var i :| 0 <= i < |cs| && Kept(cs[i]) && Id(Numbered(cs)) == IdOf(cs, i);
      NumberedGrows(cs, i);
      IdInjective(Numbered(cs), Numbered(cs[..i]));
    }
  }

  lemma NoDupSnoc(xs: seq<EdgeId>, x: EdgeId)
    requires NoDup(xs) && x !in xs
    ensures NoDup(xs + [x])
  {
    assert multiset(xs + [x]) == multiset(xs) + multiset{x};
    assert multiset(xs)[x] == 0;
  }

  lemma SameIds(cs: seq<EdgeConfig>, c: EdgeConfig, i: nat)
    requires i < |cs|
    ensures IdOf(cs + [c], i) == IdOf(cs, i) && (cs + [c])[i] == cs[i]
  {
    assert (cs + [c])[..i] == cs[..i];
  }

  lemma SkippedConfig(cs: seq<EdgeConfig>, c: EdgeConfig, edges: map<EdgeId, Edge>, ins: map<NodeId, seq<EdgeId>>,
      outs: map<NodeId, seq<EdgeId>>)
    requires Tables(cs, edges, ins, outs) && !Kept(c)
    ensures Tables(cs + [c], edges, ins, outs)
  {
    hide IdOf, Listed, ListedOnce;
    forall i | 0 <= i < |cs| ensures IdOf(cs + [c], i) == IdOf(cs, i) && (cs + [c])[i] == cs[i] { SameIds(cs, c, i); }
    forall e | e in edges ensures exists i :: 0 <= i < |cs + [c]| && Kept((cs + [c])[i]) && e == IdOf(cs + [c], i) {
      var i :| 0 <= i < |cs| && Kept(cs[i]) && e == IdOf(cs, i);
      assert Kept((cs + [c])[i]) && e == IdOf(cs + [c], i);
    }
  }

  /** The tables after one more edge. */
  lemma AddedConfig(cs: seq<EdgeConfig>, c: EdgeConfig, edges: map<EdgeId, Edge>, ins: map<NodeId, seq<EdgeId>>,
      outs: map<NodeId, seq<EdgeId>>)
    requires Tables(cs, edges, ins, outs) && Kept(c)
    ensures var id, e := Id(Numbered(cs)), EdgeOf(c);
      Tables(cs + [c], edges[id := e], ins[e.head := ListAt(ins, e.head) + [id]],
        outs[e.tail := ListAt(outs, e.tail) + [id]])
  {
    hide EdgesListed, Listed, ListedOnce, Id, Numbered;
    var id, e := Id(Numbered(cs)), EdgeOf(c);
    NextIdIsNew(cs, edges);
    AddedEdges(cs, c, edges);
    AddedList(edges, ins, e.head, id, e, true, ins[e.head := ListAt(ins, e.head) + [id]]);
    AddedList(edges, outs, e.tail, id, e, false, outs[e.tail := ListAt(outs, e.tail) + [id]]);
    AddedOnce(edges, outs, e.tail, id, outs[e.tail := ListAt(outs, e.tail) + [id]]);
  }

  lemma AddedOnce(edges: map<EdgeId, Edge>, m: map<NodeId, seq<EdgeId>>, at: NodeId, id: EdgeId,
      r: map<NodeId, seq<EdgeId>>)
    requires Listed(m, edges, false) && ListedOnce(m) && id !in edges && r == m[at := ListAt(m, at) + [id]]
    ensures ListedOnce(r)
  {
    forall n ensures NoDup(ListAt(r, n)) {
      assert NoDup(ListAt(m, n));
      if n == at {
        assert id !in ListAt(m, at);
        NoDupSnoc(ListAt(m, at), id);
      }
    }
  }

  lemma AddedList(edges: map<EdgeId, Edge>, m: map<NodeId, seq<EdgeId>>, at: NodeId, id: EdgeId, edge: Edge,
      head: bool, r: map<NodeId, seq<EdgeId>>)
    requires Listed(m, edges, head) && id !in edges && End(edge, head) == at && r == m[at := ListAt(m, at) + [id]]
    ensures Listed(r, edges[id := edge], head)
  {
    forall n, e ensures e in ListAt(r, n) <==> e in edges[id := edge] && End(edges[id := edge][e], head) == n {
      assert ListAt(r, n) == if n == at then ListAt(m, at) + [id] else ListAt(m, n);
      assert e in ListAt(m, n) <==> e in edges && End(edges[e], head) == n;
    }
  }

  lemma AddedEdges(cs: seq<EdgeConfig>, c: EdgeConfig, edges: map<EdgeId, Edge>)
    requires EdgesListed(cs, edges) && Kept(c) && Id(Numbered(cs)) !in edges
    ensures EdgesListed(cs + [c], edges[Id(Numbered(cs)) := EdgeOf(c)])
  {
    hide IdOf, EdgeOf;
    var id := Id(Numbered(cs));
    var ds := cs + [c];
    LastId(cs, c);
    forall i | 0 <= i < |cs| ensures IdOf(ds, i) == IdOf(cs, i) && ds[i] == cs[i] { SameIds(cs, c, i); }
    var q := edges[id := EdgeOf(c)];
    forall e | e in q ensures exists i :: 0 <= i < |ds| && Kept(ds[i]) && e == IdOf(ds, i) {
      if e == id {
        assert Kept(ds[|cs|]) && e == IdOf(ds, |cs|);
      } else {
        var i :| 0 <= i < |cs| && Kept(cs[i]) && e == IdOf(cs, i);
        assert Kept(ds[i]) && e == IdOf(ds, i);
      }
    }
    forall i | 0 <= i < |ds| && Kept(ds[i]) ensures IdOf(ds, i) in q && q[IdOf(ds, i)] == EdgeOf(ds[i]) {
      if i < |cs| { assert IdOf(cs, i) in edges; }
    }
  }

  lemma LastId(cs: seq<EdgeConfig>, c: EdgeConfig)
    ensures IdOf(cs + [c], |cs|) == Id(Numbered(cs)) && (cs + [c])[|cs|] == c
  {
    assert (cs + [c])[..|cs|] == cs;
  }

  /** The edges at this end of `n`, in the order of the configuration. */
  function IdsAt(cs: seq<EdgeConfig>, n: NodeId, head: bool): seq<EdgeId>
    decreases |cs|
  {
    if cs == [] then []
    else
      var front, c := cs[..|cs| - 1], cs[|cs| - 1];
      IdsAt(front, n, head) + if Kept(c) && End(EdgeOf(c), head) == n then [Id(Numbered(front))] else []
  }

  ghost predicate ListedInOrder(cs: seq<EdgeConfig>, m: map<NodeId, seq<EdgeId>>, head: bool) {
    forall n :: ListAt(m, n) == IdsAt(cs, n, head)
  }

  lemma OrderKept(cs: seq<EdgeConfig>, c: EdgeConfig, m: map<NodeId, seq<EdgeId>>, head: bool,
      r: map<NodeId, seq<EdgeId>>)
    requires ListedInOrder(cs, m, head)
    requires r == if Kept(c) then m[End(EdgeOf(c), head) := ListAt(m, End(EdgeOf(c), head)) + [Id(Numbered(cs))]] else m
    ensures ListedInOrder(cs + [c], r, head)
  {
    var ds := cs + [c];
    assert ds[..|ds| - 1] == cs;
    forall n ensures ListAt(r, n) == IdsAt(ds, n, head) {
      assert ListAt(m, n) == IdsAt(cs, n, head);
    }
  }

  lemma NoConfigs()
    ensures Tables([], map[], map[], map[]) && ListedInOrder([], map[], true) && ListedInOrder([], map[], false)
    ensures Numbered([]) == 0
  {
  }

  /** `_build_edges`: the tables, and the order of their lists. */
  method BuildEdges(cs: seq<EdgeConfig>) returns (edges: map<EdgeId, Edge>, ins: map<NodeId, seq<EdgeId>>,
      outs: map<NodeId, seq<EdgeId>>)
    ensures Tables(cs, edges, ins, outs) && ListedInOrder(cs, ins, true) && ListedInOrder(cs, outs, false)
  {
    edges, ins, outs := map[], map[], map[];
    var counter := 0;
    NoConfigs();
    hide Tables, ListedInOrder, ListAt, Id;
    assert cs[..0] == [];
    for i := 0 to |cs|
      invariant Tables(cs[..i], edges, ins, outs) && counter == Numbered(cs[..i])
      invariant ListedInOrder(cs[..i], ins, true) && ListedInOrder(cs[..i], outs, false)
    {
      var c := cs[i];
      assert cs[..i + 1] == cs[..i] + [c] && (cs[..i] + [c])[..i] == cs[..i];
      if c.source.None? || c.target.None? {
        SkippedConfig(cs[..i], c, edges, ins, outs);
        OrderKept(cs[..i], c, ins, true, ins);
        OrderKept(cs[..i], c, outs, false, outs);
        continue;
      }
      var id := Id(counter);
      counter := counter + 1;
      if c.handle.Malformed? {
        SkippedConfig(cs[..i], c, edges, ins, outs);
        OrderKept(cs[..i], c, ins, true, ins);
        OrderKept(cs[..i], c, outs, false, outs);
        continue;
      }
      AddedConfig(cs[..i], c, edges, ins, outs);
      var edge := Edge(c.source.value, c.target.value, if c.handle.Absent? then "source" else c.handle.handle);
      edges := edges[id := edge];
      OrderKept(cs[..i], c, outs, false, outs[edge.tail := ListAt(outs, edge.tail) + [id]]);
      OrderKept(cs[..i], c, ins, true, ins[edge.head := ListAt(ins, edge.head) + [id]]);
      outs := outs[edge.tail := ListAt(outs, edge.tail) + [id]];
      ins := ins[edge.head := ListAt(ins, edge.head) + [id]];
    }
    assert cs[..|cs|] == cs;
  }

  lemma NumbersDiffer(cs: seq<EdgeConfig>, i: nat, j: nat)
    requires i < |cs| && j < |cs| && i != j && HasEnds(cs[i]) && HasEnds(cs[j])
    ensures IdOf(cs, i) != IdOf(cs, j)
  {
    var a, b := if i < j then i else j, if i < j then j else i;
    NumberedGrows(cs[..b], a);
    assert cs[..b][..a] == cs[..a] && cs[..b][a] == cs[a];
    IdInjective(Numbered(cs[..a]), Numbered(cs[..b]));
  }

  /** The tables link the graph they are used in, and distinct kept configurations give distinct
      edges. */
  lemma BuiltIsLinked(cs: seq<EdgeConfig>, edges: map<EdgeId, Edge>, ins: map<NodeId, seq<EdgeId>>,
      outs: map<NodeId, seq<EdgeId>>,
                      nodes: map<NodeId, Node>, root: NodeId)
    requires Tables(cs, edges, ins, outs)
    ensures Linked(Graph(nodes, edges, ins, outs, root))
    ensures forall i, j :: 0 <= i < j < |cs| && Kept(cs[i]) && Kept(cs[j]) ==> IdOf(cs, i) != IdOf(cs, j)
  {
    hide EdgesListed;
    var g := Graph(nodes, edges, ins, outs, root);
    forall n ensures LinkedAt(g, n) {
      assert Out(g, n) == ListAt(outs, n) && In(g, n) == ListAt(ins, n);
      assert NoDup(ListAt(outs, n));
    }
    forall i, j | 0 <= i < j < |cs| && Kept(cs[i]) && Kept(cs[j]) ensures IdOf(cs, i) != IdOf(cs, j) {
      NumbersDiffer(cs, i, j);
    }
  }

  /** The edges are those of the configurations with a source and a target and without a malformed
      handle: from the source, to the target, with the handle or, where none is given, "source". */
  lemma BuiltEdgesAre(cs: seq<EdgeConfig>, edges: map<EdgeId, Edge>, ins: map<NodeId, seq<EdgeId>>,
      outs: map<NodeId, seq<EdgeId>>, i: nat)
    requires Tables(cs, edges, ins, outs) && i < |cs|
    ensures match cs[i]
      case EdgeConfig(Some(source), Some(target), Named(handle)) =>
        IdOf(cs, i) in edges && edges[IdOf(cs, i)] == Edge(source, target, handle)
        && IdOf(cs, i) in ListAt(outs, source) && IdOf(cs, i) in ListAt(ins, target)
      case EdgeConfig(Some(source), Some(target), Absent) =>
        IdOf(cs, i) in edges && edges[IdOf(cs, i)] == Edge(source, target, "source")
        && IdOf(cs, i) in ListAt(outs, source) && IdOf(cs, i) in ListAt(ins, target)
      case EdgeConfig(Some(_), Some(_), Malformed) => IdOf(cs, i) !in edges
      case _ => true
  {
    hide ListedOnce, ListAt, IdOf;
    if HasEnds(cs[i]) && cs[i].handle.Malformed? && IdOf(cs, i) in edges {
      var j :| 0 <= j < |cs| && Kept(cs[j]) && IdOf(cs, i) == IdOf(cs, j);
      NumbersDiffer(cs, i, j);
    }
  }

  // ---------- fail branches ----------

  /** `_promote_fail_branch_nodes`: a node with a fail branch becomes a branch, which is what runs ask
      of a graph. */
  method PromoteFailBranchNodes(nodes: map<NodeId, Node>) returns (promoted: map<NodeId, Node>)
    ensures promoted.Keys == nodes.Keys
    ensures forall n :: n in nodes ==> promoted[n] == nodes[n].(kind := promoted[n].kind)
    ensures forall n :: n in nodes && nodes[n].strategy == FailBranch ==> promoted[n].kind == Branch
    ensures forall n :: n in nodes && nodes[n].strategy != FailBranch ==> promoted[n].kind == nodes[n].kind
    ensures forall g: Graph :: g.nodes == promoted ==> Promoted(g)
  {
    promoted := nodes;
    var ids := nodes.Keys;
    while ids != {}
      invariant ids <= nodes.Keys == promoted.Keys
      invariant forall n :: n in nodes ==>
        promoted[n] == if n !in ids && nodes[n].strategy == FailBranch then nodes[n].(kind := Branch) else nodes[n]
      decreases ids
    {
      var n :| n in ids;
      if promoted[n].strategy == FailBranch { promoted := promoted[n := promoted[n].(kind := Branch)]; }
      ids := ids - {n};
    }
  }
}
