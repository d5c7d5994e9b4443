/** Walks along edges. */
module Walks {
  import opened Graphs

  /** `p` leads from `a` to `b`. */
  ghost predicate IsWalk(g: Graph, a: NodeId, p: seq<EdgeId>, b: NodeId)
    decreases |p|
  {
    if p == [] then a == b
    else
      var last := p[|p| - 1];
      last in g.edges && Head(g, last) == b && IsWalk(g, a, p[..|p| - 1], Tail(g, last))
  }

  lemma WalkSnoc(g: Graph, a: NodeId, p: seq<EdgeId>, e: EdgeId)
    requires e in g.edges && IsWalk(g, a, p, Tail(g, e))
    ensures IsWalk(g, a, p + [e], Head(g, e))
  {
    assert (p + [e])[..|p|] == p;
  }
}
