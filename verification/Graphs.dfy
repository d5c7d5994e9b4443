/** Workflow graphs: nodes with their execution configuration, edges, and the two
    adjacency tables that `Graph` keeps (src/graphon/graph/graph.py). */
module Graphs {
  import opened Templates

  type NodeId = string
  type EdgeId = string

  /** `NodeState`, used for nodes and for edges. */
  datatype Mark = Unknown | Taken | Skipped

  datatype ExecutionType = Executable | Response | Branch | Container | Root

  datatype ErrorStrategy = Abort | FailBranch | DefaultValue

  /** The part of a node's configuration that scheduling and streaming look at.
      `assigns` holds the selectors whose output the node blocks (variable assigners). */
  datatype Node = Node(
    kind: ExecutionType,
    strategy: ErrorStrategy,
    retry: bool,
    maxRetries: int,
    assigns: set<Selector>,
    template: seq<Segment>)

  datatype Edge = Edge(tail: NodeId, head: NodeId, handle: string)

  datatype Graph = Graph(
    nodes: map<NodeId, Node>,
    edges: map<EdgeId, Edge>,
    ins: map<NodeId, seq<EdgeId>>,
    outs: map<NodeId, seq<EdgeId>>,
    root: NodeId)

  // Lookups are total; a graph that satisfies `Wf` never reaches their default cases.

  function Out(g: Graph, n: NodeId): seq<EdgeId> { if n in g.outs then g.outs[n] else [] }

  function In(g: Graph, n: NodeId): seq<EdgeId> { if n in g.ins then g.ins[n] else [] }

  function Tail(g: Graph, e: EdgeId): NodeId { if e in g.edges then g.edges[e].tail else g.root }

  function Head(g: Graph, e: EdgeId): NodeId { if e in g.edges then g.edges[e].head else g.root }

  function Handle(g: Graph, e: EdgeId): string { if e in g.edges then g.edges[e].handle else "source" }

  function Kind(g: Graph, n: NodeId): ExecutionType { if n in g.nodes then g.nodes[n].kind else Executable }

  predicate IsBranch(g: Graph, n: NodeId) { Kind(g, n) == Branch }

  function Strategy(g: Graph, n: NodeId): ErrorStrategy { if n in g.nodes then g.nodes[n].strategy else Abort }

  function Retries(g: Graph, n: NodeId): bool { n in g.nodes && g.nodes[n].retry }

  function MaxRetries(g: Graph, n: NodeId): int { if n in g.nodes then g.nodes[n].maxRetries else 0 }

  function Elems<T(==)>(xs: seq<T>): set<T> {
    set x | x in xs
  }

  lemma ElemsCons<T>(xs: seq<T>)
    requires xs != []
    ensures Elems(xs) == {xs[0]} + Elems(xs[1..]) && xs[0] in Elems(xs)
  {
  }

  ghost predicate NoDup<T(!new)>(xs: seq<T>) {
    forall x :: multiset(xs)[x] <= 1
  }

  lemma NoDupTail<T(!new)>(xs: seq<T>)
    requires NoDup(xs) && xs != []
    ensures xs[0] !in xs[1..] && NoDup(xs[1..])
  {
    assert xs == [xs[0]] + xs[1..];
    assert forall x :: multiset(xs)[x] == multiset{xs[0]}[x] + multiset(xs[1..])[x];
    assert multiset(xs)[xs[0]] <= 1;
  }

  /** The adjacency tables list exactly the edges that leave, and that enter, `n`. */
  ghost predicate LinkedAt(g: Graph, n: NodeId) {
    && (forall e :: e in Out(g, n) <==> e in g.edges && Tail(g, e) == n)
    && (forall e :: e in In(g, n) <==> e in g.edges && Head(g, e) == n)
    && NoDup(Out(g, n))
  }

  ghost predicate Linked(g: Graph) {
    forall n :: LinkedAt(g, n)
  }

  /** No edge enters `n`. */
  ghost predicate IsSource(g: Graph, n: NodeId) {
    forall e :: e in g.edges ==> Head(g, e) != n
  }

  /** What graph validation and the documentation of root nodes ask for: tables as above,
      endpoints that exist, and a root that no edge enters. */
  ghost predicate Wf(g: Graph) {
    && Linked(g)
    && (forall e :: e in g.edges ==> Tail(g, e) in g.nodes && Head(g, e) in g.nodes)
    && g.root in g.nodes
    && IsSource(g, g.root)
  }

  /** A rank that grows along every edge; a graph has one exactly when it is acyclic. */
  ghost predicate Ranked(g: Graph, rank: map<NodeId, nat>) {
    && rank.Keys == g.nodes.Keys
    && forall e :: e in g.edges ==>
         (Tail(g, e) in rank && Head(g, e) in rank && rank[Tail(g, e)] < rank[Head(g, e)])
  }
}
