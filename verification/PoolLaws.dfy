/** What reading the variable pool answers after outputs have been stored in it
    (event_handlers.py, variable_pool.py). */
module PoolLaws {
  import opened Templates
  import opened VariablePool
  import opened Graphs
  import opened Traversal
  import opened Scheduler
  import opened Runs
  import opened Coordinator
  import opened World
  import opened WorldRuns
  import opened HandlerLaws

  /** A longer selector reads a part of what its prefix reads: a field of an object, or an attribute
      of a file stored under two names. Scalars have no parts. */
  lemma {:induction false} GetPart(pool: Pool, sel: Selector, part: string)
    requires |sel| >= 2 && !(|sel| > 2 && (sel[0], sel[1]) in pool && pool[(sel[0], sel[1])].File?)
    ensures Get(pool, sel + [part]) ==
      match Get(pool, sel)
      case None => None
      case Some(Scalar(_)) => None
      case Some(Object(_, fields)) => if part in fields then Some(fields[part]) else None
      case Some(File(_, attributes)) => if |sel| == 2 && part in attributes then Some(attributes[part]) else None
  {
    var longer := sel + [part];
    assert longer[0] == sel[0] && longer[1] == sel[1] && longer[2..] == sel[2..] + [part];
    if (sel[0], sel[1]) in pool {
      var v := pool[(sel[0], sel[1])];
      if |sel| == 2 {
        assert longer[2..] == [part] && longer[2] == part && |longer| == 3;
        assert [part][0] == part && [part][1..] == [];
        assert Get(pool, sel) == Some(v);
        if v.Object? && part in v.fields { assert GetNested(v.fields[part], []) == Some(v.fields[part]); }
      } else {
        NestedPart(v, sel[2..], part);
      }
    }
  }

  lemma {:induction false} NestedPart(v: Value, attrs: seq<string>, part: string)
    ensures GetNested(v, attrs + [part]) ==
      match GetNested(v, attrs)
      case Some(Object(_, fields)) => if part in fields then Some(fields[part]) else None
      case _ => None
    decreases |attrs|
  {
    if attrs == [] {
      assert (attrs + [part])[0] == part && (attrs + [part])[1..] == [];
    } else {
      assert (attrs + [part])[0] == attrs[0] && (attrs + [part])[1..] == attrs[1..] + [part];
      if v.Object? && attrs[0] in v.fields { NestedPart(v.fields[attrs[0]], attrs[1..], part); }
    }
  }

  /** The selector names the variable `v` of `n`, or a part of it. */
  predicate Names(sel: Selector, n: string, v: string) { [n, v] <= sel }

  /** What the selector reads of a value stored under its first two parts. */
  function Reads(sel: Selector, value: Value): Option<Value>
    requires |sel| >= 2
  {
    Get(map[(sel[0], sel[1]) := value], sel)
  }

  /** Once the outputs of a node are stored, its variables read as them... */
  lemma StoreAnswers(pool: Pool, n: NodeId, outputs: map<string, Value>, v: string)
    requires v in outputs
    ensures Get(Store(pool, n, outputs), [n, v]) == Some(outputs[v])
    ensures forall sel :: Names(sel, n, v) ==> Get(Store(pool, n, outputs), sel) == Reads(sel, outputs[v])
  {
    var r := Store(pool, n, outputs);
    assert (n, v) in r && r[(n, v)] == outputs[v];
    forall sel | Names(sel, n, v) ensures Get(r, sel) == Reads(sel, outputs[v]) {
      assert sel[0] == n && sel[1] == v;
    }
  }

  /** ... and every selector that names none of them reads what it read before. */
  lemma StoreKeepsOthers(pool: Pool, n: NodeId, outputs: map<string, Value>, sel: Selector)
    requires forall v :: v in outputs ==> !Names(sel, n, v)
    ensures Get(Store(pool, n, outputs), sel) == Get(pool, sel)
  {
    if |sel| >= 2 { NamesItsFirstTwo(sel); }
  }

  lemma NamesItsFirstTwo(sel: Selector)
    requires |sel| >= 2
    ensures Names(sel, sel[0], sel[1])
  {
  }

  /** An update of one variable. */
  lemma UpdateAnswers(pool: Pool, at: Selector, value: Value, sel: Selector)
    requires |at| == 2
    ensures Get(pool[(at[0], at[1]) := value], sel) == if at <= sel then Reads(sel, value) else Get(pool, sel)
  {
    if |sel| >= 2 && sel[0] == at[0] && sel[1] == at[1] { assert at <= sel; }
  }

  // ---------- steps of the engine ----------

  /** The outputs that handling the event stores: those of a success, and those that an error
      strategy produces once no tries are left. */
  function Produced(g: Graph, c: Core, ev: Event, outputs: map<string, Value>): map<string, Value> {
    match ev
    case Succeeded(_, _, out) => out
    case Failed(n) => if !TriesLeft(g, c, n) && Strategy(g, n) != Abort then outputs else map[]
    case _ => map[]
  }

  lemma NothingStored(pool: Pool, n: NodeId)
    ensures Store(pool, n, map[]) == pool
  {
  }

  lemma PoolAfterEvent(g: Graph, c: Core, ev: Event, outputs: map<string, Value>, pool: Pool)
    ensures PoolAfter(g, c, ev, outputs, pool) ==
      if ev.Updated? && |ev.selector| == 2 then pool[(ev.selector[0], ev.selector[1]) := ev.value]
      else Store(pool, ev.node, Produced(g, c, ev, outputs))
  {
    NothingStored(pool, ev.node);
  }

  /** What a selector reads after a step of the engine: outputs that the step stores, the value of an
      update, or what it read before. */
  lemma StepAnswers(g: Graph, w: World, step: Step, outputs: map<string, Value>, order: seq<NodeId>, r: World,
      sel: Selector)
    requires Wf(g) && WorldNext(g, w, step, outputs, order, r)
    ensures step.Dispatch? ==> w.e.events != []
    ensures step.Dispatch? ==>
      var ev := w.e.events[0];
      var produced := Produced(g, w.e.core, ev, outputs);
      && (forall v :: v in produced ==> Get(r.pool, [ev.node, v]) == Some(produced[v]))
      && (forall v :: v in produced && Names(sel, ev.node, v) ==> Get(r.pool, sel) == Reads(sel, produced[v]))
      && (ev.Updated? && |ev.selector| == 2 && ev.selector <= sel ==> Get(r.pool, sel) == Reads(sel, ev.value))
      && ((forall v :: v in produced ==> !Names(sel, ev.node, v)) && !(ev.Updated? && ev.selector <= sel) ==>
            Get(r.pool, sel) == Get(w.pool, sel))
    ensures !step.Dispatch? && !step.UpdateCommand? ==> r.pool == w.pool
  {
    hide Get, Names, Store, OpsFor, RunOps, Feasible, HandleEvent, Pending, Resumed, OutputsAfter;
    if step.Dispatch? {
      var ev := w.e.events[0];
      var produced := Produced(g, w.e.core, ev, outputs);
      PoolAfterEvent(g, w.e.core, ev, outputs, w.pool);
      hide PoolAfter, WorldNext, Produced, Reads;
      if ev.Updated? && |ev.selector| == 2 {
        UpdateAnswers(w.pool, ev.selector, ev.value, sel);
      } else {
        forall v | v in produced { StoreAnswers(w.pool, ev.node, produced, v); }
        if forall v :: v in produced ==> !Names(sel, ev.node, v) {
          StoreKeepsOthers(w.pool, ev.node, produced, sel);
        }
      }
    }
  }

  /** What the outputs of the run are after an event has been handled: a response node that succeeds,
      or goes on by an error strategy, appends its answer and replaces its other outputs; nothing else
      changes them. */
  lemma StepMerges(g: Graph, w: World, step: Step, outputs: map<string, Value>, order: seq<NodeId>, r: World)
    requires Wf(g) && Promoted(g) && WorldNext(g, w, step, outputs, order, r)
    ensures step.Dispatch? ==> w.e.events != []
    ensures step.Dispatch? && Kind(g, w.e.events[0].node) == Response ==>
      var produced := Produced(g, w.e.core, w.e.events[0], outputs);
      && r.outputs.Keys == w.outputs.Keys + produced.Keys
      && forall k :: k in r.outputs ==>
           r.outputs[k] ==
             if k !in produced then w.outputs[k]
             else if k == "answer" && k in w.outputs then w.outputs[k] + produced[k].markdown
             else produced[k].markdown
    ensures !(step.Dispatch? && Kind(g, w.e.events[0].node) == Response) ==> r.outputs == w.outputs
  {
    hide OpsFor, RunOps, Feasible, HandleEvent, Pending, Resumed, PoolAfter, Wf, MergeOutputs, Produced;
    if step.Dispatch? {
      var ev := w.e.events[0];
      OutputsAreMerged(g, w.e.core, ev, outputs, w.outputs);
      NothingMerged(w.outputs);
      MergedAre(w.outputs, Produced(g, w.e.core, ev, outputs));
    }
  }

  lemma OutputsAreMerged(g: Graph, c: Core, ev: Event, outputs: map<string, Value>, before: map<string, string>)
    requires Promoted(g)
    ensures OutputsAfter(g, c, ev, outputs, before) ==
      if Kind(g, ev.node) == Response then MergeOutputs(before, Produced(g, c, ev, outputs)) else before
  {
    NothingMerged(before);
    hide MergeOutputs;
    assert Strategy(g, ev.node) == FailBranch ==> IsBranch(g, ev.node);
  }

  lemma NothingMerged(before: map<string, string>)
    ensures MergeOutputs(before, map[]) == before
  {
  }

  lemma MergedAre(before: map<string, string>, produced: map<string, Value>)
    ensures var r := MergeOutputs(before, produced);
      && r.Keys == before.Keys + produced.Keys
      && forall k :: k in r ==>
           r[k] == if k !in produced then before[k]
             else if k == "answer" && k in before then before[k] + produced[k].markdown
             else produced[k].markdown
  {
  }

  // ---------- runs of the engine ----------

  /** The step writes the variable `v` of `n`. */
  ghost predicate Overwrites(g: Graph, w: World, m: Move, n: string, v: string) {
    match m.step
    case Dispatch =>
      w.e.events != [] &&
      var ev := w.e.events[0];
      (ev.node == n && v in Produced(g, w.e.core, ev, m.outputs)) || (ev.Updated? && ev.selector == [n, v])
    case UpdateCommand(updates) => exists k :: 0 <= k < |updates| && updates[k].0 == [n, v]
    case _ => false
  }

  lemma StepKeepsVariable(g: Graph, w: World, m: Move, r: World, n: string, v: string)
    requires Wf(g) && WorldNext(g, w, m.step, m.outputs, m.order, r) && !Overwrites(g, w, m, n, v)
    ensures Get(r.pool, [n, v]) == Get(w.pool, [n, v])
  {
    hide Get, Next, OpsFor, RunOps, Feasible, OutputsAfter, PoolAfter, Produced, Store;
    StepAnswers(g, w, m.step, m.outputs, m.order, r, [n, v]);
    match m.step
    case Dispatch => NamesItself(n, v);
    case UpdateCommand(updates) => UpdatesKeep(w.pool, updates, n, v);
    case _ =>
  }

  lemma NamesItself(n: string, v: string)
    ensures forall k, u :: Names([n, v], k, u) <==> k == n && u == v
    ensures forall at: Selector :: |at| == 2 && at <= [n, v] ==> at == [n, v]
  {
    forall k, u ensures Names([n, v], k, u) <==> k == n && u == v {
      if Names([n, v], k, u) { assert [n, v][0] == [k, u][0] && [n, v][1] == [k, u][1]; }
    }
  }

  lemma UpdatesKeep(pool: Pool, updates: seq<(Selector, Value)>, n: string, v: string)
    requires forall k :: 0 <= k < |updates| ==> updates[k].0 != [n, v]
    ensures Get(UpdatedPool(pool, updates), [n, v]) == Get(pool, [n, v])
  {
    LastUpdateCounts(pool, updates, n, v);
  }

  /** What is stored is read until it is overwritten, whatever else happens in the run. */
  lemma {:induction false} ReadsUntilOverwritten(g: Graph, trace: seq<World>, moves: seq<Move>, i: nat, j: nat,
      n: string, v: string)
    requires Wf(g) && IsWorldRun(g, trace, moves) && i <= j < |trace|
    requires forall k :: i <= k < j ==> !Overwrites(g, trace[k], moves[k], n, v)
    ensures Get(trace[j].pool, [n, v]) == Get(trace[i].pool, [n, v])
    decreases j
  {
    hide WorldNext, Overwrites, Get;
    if i < j {
      ReadsUntilOverwritten(g, trace, moves, i, j - 1, n, v);
      StepKeepsVariable(g, trace[j - 1], moves[j - 1], trace[j], n, v);
    }
  }
}
