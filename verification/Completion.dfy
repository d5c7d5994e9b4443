/** What a finished node does to its out-edges (edge_processor.py): every edge of a plain node
    is taken; a branch node takes the edges of the selected handle and skips the others. */
module Completion {
  import opened Graphs
  import opened Traversal

  /** A handler that raises leaves the marks alone. */
  datatype Outcome = Done(state: State, ready: seq<NodeId>) | Raised

  /** The out-edges of `n` that carry (or do not carry) the handle. */
  function Selected(g: Graph, n: NodeId, handle: string): seq<EdgeId> {
    Categorize(g, Out(g, n), handle, true)
  }

  function Unselected(g: Graph, n: NodeId, handle: string): seq<EdgeId> {
    Categorize(g, Out(g, n), handle, false)
  }

  /** `process_node_success`. */
  function ProcessNodeSuccess(g: Graph, s: State, n: NodeId, handle: string): Outcome {
    if IsBranch(g, n) then
      if handle == "" then Raised
      else
        var m := RemarkSkipped(s.edge, Unselected(g, n, handle));
        var (r, ready) := TakeEdges(g, m, Selected(g, n, handle));
        Done(s.(edge := r), ready)
    else
      var (r, ready) := TakeEdges(g, s.edge, Out(g, n));
      Done(s.(edge := r), ready)
  }

  /** `handle_branch_completion`. */
  function HandleBranchCompletion(g: Graph, s: State, n: NodeId, handle: string): Outcome
    requires Wf(g) && Pending(g, s.edge, n, Out(g, n))
  {
    if handle == "" then Raised
    else
      CategoryIsPending(g, s.edge, n, Out(g, n), handle, false);
      ProcessNodeSuccess(g, SkipEdges(g, s, n, Unselected(g, n, handle)), n, handle)
  }

  /** The edges that finishing with this handle takes, and those that it skips. */
  ghost function TakenBy(g: Graph, n: NodeId, handle: string): set<EdgeId> {
    set e | e in g.edges && Tail(g, e) == n && (IsBranch(g, n) ==> Handle(g, e) == handle)
  }

  ghost function SkippedBy(g: Graph, n: NodeId, handle: string): set<EdgeId> {
    set e | e in g.edges && Tail(g, e) == n && IsBranch(g, n) && Handle(g, e) != handle
  }

  lemma {:induction false} CategorizeElems(g: Graph, es: seq<EdgeId>, handle: string, selected: bool)
    ensures forall e :: e in Elems(Categorize(g, es, handle, selected)) <==>
      e in Elems(es) && (Handle(g, e) == handle) == selected
    decreases |es|
  {
    if es != [] {
      ElemsCons(es);
      CategorizeElems(g, es[1..], handle, selected);
      var c := Categorize(g, es, handle, selected);
      if (Handle(g, es[0]) == handle) == selected {
        ElemsCons(c);
        assert c[1..] == Categorize(g, es[1..], handle, selected);
      }
    }
  }

  lemma {:induction false} CategorizeNoDup(g: Graph, es: seq<EdgeId>, handle: string, selected: bool)
    requires NoDup(es)
    ensures NoDup(Categorize(g, es, handle, selected))
    ensures multiset(Categorize(g, es, handle, selected)) <= multiset(es)
    decreases |es|
  {
    if es != [] {
      NoDupTail(es);
      CategorizeNoDup(g, es[1..], handle, selected);
      assert es == [es[0]] + es[1..];
      assert multiset(es) == multiset{es[0]} + multiset(es[1..]);
    }
  }

  lemma CategoryIsPending(g: Graph, m: Marks, n: NodeId, es: seq<EdgeId>, handle: string, selected: bool)
    requires Pending(g, m, n, es)
    ensures Pending(g, m, n, Categorize(g, es, handle, selected))
  {
    CategorizeElems(g, es, handle, selected);
    CategorizeNoDup(g, es, handle, selected);
    forall d | d in Categorize(g, es, handle, selected) ensures d in es {
      assert d in Elems(Categorize(g, es, handle, selected));
    }
  }

  lemma {:induction false} RemarkIsIdle(m: Marks, es: seq<EdgeId>)
    requires forall e :: e in Elems(es) ==> e in m && m[e] == Skipped
    ensures RemarkSkipped(m, es) == m
    decreases |es|
  {
    if es != [] {
      ElemsCons(es);
      assert m[es[0] := Skipped] == m;
      RemarkIsIdle(m, es[1..]);
    }
  }

  /** Completing a node resolves exactly its out-edges, the way its kind and handle say. */
  lemma CompletionResolves(g: Graph, s: State, n: NodeId, handle: string)
    requires Wf(g) && Pending(g, s.edge, n, Out(g, n))
    requires IsBranch(g, n) ==> handle != ""
    ensures (if IsBranch(g, n) then HandleBranchCompletion(g, s, n, handle)
      else ProcessNodeSuccess(g, s, n, handle)).Done?
    ensures var o := if IsBranch(g, n) then HandleBranchCompletion(g, s, n, handle)
      else ProcessNodeSuccess(g, s, n, handle);
      Resolves(g, s, o.state, TakenBy(g, n, handle), SkippedBy(g, n, handle), o.ready)
  {
    assert LinkedAt(g, n);
    if IsBranch(g, n) {
      BranchResolves(g, s, n, handle);
    } else {
      TakeEdgesResolves(g, s, n, Out(g, n));
      assert Elems(Out(g, n)) == TakenBy(g, n, handle);
      assert SkippedBy(g, n, handle) == {};
    }
  }

  lemma {:induction false} TakingKeepsOthers(g: Graph, m: Marks, es: seq<EdgeId>, d: EdgeId)
    requires d !in es
    ensures EdgeMark(TakeEdges(g, m, es).0, d) == EdgeMark(m, d)
    decreases |es|
  {
    if es != [] { TakingKeepsOthers(g, m[es[0] := Taken], es[1..], d); }
  }

  /** First the unselected edges are skipped, and nothing of that touches the selected ones. */
  lemma BranchSkips(g: Graph, s: State, n: NodeId, handle: string) returns (m: State)
    requires Wf(g) && Pending(g, s.edge, n, Out(g, n)) && IsBranch(g, n) && handle != ""
    ensures Resolves(g, s, m, {}, Elems(Unselected(g, n, handle)), [])
    ensures Pending(g, m.edge, n, Selected(g, n, handle))
    ensures forall e :: e in Elems(Selected(g, n, handle)) ==> EdgeMark(m.edge, e) == Unknown
    ensures var (r, ready) := TakeEdges(g, m.edge, Selected(g, n, handle));
      HandleBranchCompletion(g, s, n, handle) == Done(m.(edge := r), ready)
  {
    hide Resolves, Pending;
    CategoryIsPending(g, s.edge, n, Out(g, n), handle, false);
    SkipEdgesResolves(g, s, n, Unselected(g, n, handle));
    m := SkipEdges(g, s, n, Unselected(g, n, handle));
    SelectedStaysPending(g, s, n, handle, m);
    RemarkIsIdle(m.edge, Unselected(g, n, handle));
  }

  lemma BranchResolves(g: Graph, s: State, n: NodeId, handle: string)
    requires Wf(g) && Pending(g, s.edge, n, Out(g, n)) && IsBranch(g, n) && handle != ""
    ensures var o := HandleBranchCompletion(g, s, n, handle);
      o.Done? && Resolves(g, s, o.state, TakenBy(g, n, handle), SkippedBy(g, n, handle), o.ready)
  {
    hide *;
    var m := BranchSkips(g, s, n, handle);
    var sel, uns := Selected(g, n, handle), Unselected(g, n, handle);
    var (r, ready) := TakeEdges(g, m.edge, sel);
    CategoriesAreEdges(g, n, handle);
    TakeEdgesResolves(g, m, n, sel);
    assert {} + Elems(sel) == Elems(sel) && Elems(uns) + {} == Elems(uns) && [] + ready == ready;
    ResolvesTrans(g, s, m, m.(edge := r), {}, Elems(uns), [], Elems(sel), {}, ready);
  }

  lemma CategoriesAreEdges(g: Graph, n: NodeId, handle: string)
    requires Wf(g) && IsBranch(g, n)
    ensures Elems(Selected(g, n, handle)) == TakenBy(g, n, handle)
    ensures Elems(Unselected(g, n, handle)) == SkippedBy(g, n, handle)
  {
    assert LinkedAt(g, n);
    CategorizeElems(g, Out(g, n), handle, true);
    CategorizeElems(g, Out(g, n), handle, false);
  }

  /** Skipping the unselected edges leaves the selected ones pending. */
  lemma SelectedStaysPending(g: Graph, s: State, n: NodeId, handle: string, q: State)
    requires Wf(g) && Pending(g, s.edge, n, Out(g, n)) && Causal(g, q.edge)
    requires Resolves(g, s, q, {}, Elems(Unselected(g, n, handle)), [])
    ensures Pending(g, q.edge, n, Selected(g, n, handle))
    ensures forall e :: e in Elems(Unselected(g, n, handle)) ==> e in q.edge && q.edge[e] == Skipped
    ensures forall e :: e in Elems(Selected(g, n, handle)) ==> EdgeMark(q.edge, e) == Unknown
  {
    var m, r := s.edge, q.edge;
    CategoryIsPending(g, m, n, Out(g, n), handle, true);
    CategoryIsPending(g, m, n, Out(g, n), handle, false);
    CategorizeElems(g, Out(g, n), handle, true);
    CategorizeElems(g, Out(g, n), handle, false);
    assert !Dies(g, m, r, n);
    forall e | e in Elems(Unselected(g, n, handle)) ensures EdgeMark(r, e) == Skipped {
      assert e in Unselected(g, n, handle);
    }
    forall e | e in Selected(g, n, handle) ensures EdgeMark(r, e) == Unknown {
      assert e in Elems(Selected(g, n, handle));
    }
    assert forall e :: e in g.edges && Head(g, e) == n ==> EdgeMark(r, e) == EdgeMark(m, e);
  }
}
