/** The dispatcher thread and the consumer together: events are collected by handlers only, and
    completion is marked when the dispatcher ends (dispatcher.py, event_manager.py). */
module Delivery {
  import opened Graphs
  import opened Traversal
  import opened Scheduler
  import opened Runs
  import opened Interleaving
  import opened Emission

  /** A collected event, whatever it says. */
  type Item = string

  /** An engine with the event manager of its run. */
  datatype Joint = Joint(m: Micro, ch: Channel<Item>)

  /** The dispatcher or a worker moves, or the consumer does. */
  datatype JointStep = Engine(step: MicroStep, collected: seq<Item>) | Receive

  function CollectAll(ch: Channel<Item>, items: seq<Item>): Channel<Item>
    decreases |items|
  {
    if items == [] then ch else CollectAll(MoveChannel(ch, Collect(items[0])), items[1..])
  }

  /** Handling an event collects events; the last act of the dispatcher marks completion; a
      resumed run has a new event manager. */
  ghost predicate JointNext(g: Graph, j: Joint, step: JointStep, r: Joint)
    requires Wf(g)
  {
    match step
    case Receive => r == j.(ch := MoveChannel(j.ch, Consumer))
    case Engine(micro, collected) =>
      && MicroNext(g, j.m, micro, r.m)
      && (collected != [] ==> micro.Fetch? || micro.FetchRefused? || micro.Put? || micro.Done?)
      && r.ch ==
         if micro.Finishing? then MoveChannel(j.ch, MarkComplete)
         else if micro.Restart? then Channel([], false, [], Test)
         else CollectAll(j.ch, collected)
  }

  ghost predicate JointOk(g: Graph, inactive: set<NodeId>, j: Joint) {
    MicroInv(g, inactive, j.m) && ChannelOk(j.ch) && (j.ch.complete <==> j.m.pc.Ended?)
  }

  lemma {:induction false} CollectingKeepsOk(ch: Channel<Item>, items: seq<Item>)
    requires ChannelOk(ch) && !ch.complete
    ensures ChannelOk(CollectAll(ch, items)) && !CollectAll(ch, items).complete
    decreases |items|
  {
    if items != [] {
      MoveKeepsOk(ch, Collect(items[0]));
      CollectingKeepsOk(MoveChannel(ch, Collect(items[0])), items[1..]);
    }
  }

  lemma JointStepKeepsOk(g: Graph, inactive: set<NodeId>, j: Joint, step: JointStep, r: Joint)
    requires Wf(g) && Promoted(g) && JointNext(g, j, step, r) && JointOk(g, inactive, j)
    ensures JointOk(g, inactive, r)
  {
    hide ChannelOk, Pending, HandleEvent, Resumed, CollectAll, Inv;
    match step
    case Receive => MoveKeepsOk(j.ch, Consumer);
    case Engine(micro, collected) =>
      MicroStepKeepsInv(g, inactive, j.m, micro, r.m);
      if micro.Finishing? {
        MoveKeepsOk(j.ch, MarkComplete);
      } else if micro.Restart? {
        NewChannelIsOk();
      } else if j.m.pc.Ended? {
        assert collected == [] && CollectAll(j.ch, collected) == j.ch by { NothingCollected(j.ch, collected); }
      } else {
        CollectingKeepsOk(j.ch, collected);
      }
  }

  lemma NewChannelIsOk()
    ensures ChannelOk<Item>(Channel([], false, [], Test))
  {
  }

  lemma NothingCollected(ch: Channel<Item>, items: seq<Item>)
    ensures items == [] ==> CollectAll(ch, items) == ch
  {
  }

  ghost predicate IsJointRun(g: Graph, trace: seq<Joint>, steps: seq<JointStep>)
    requires Wf(g)
  {
    |trace| == |steps| + 1 && forall i :: 0 <= i < |steps| ==> JointNext(g, trace[i], steps[i], trace[i + 1])
  }

  /** However workers, dispatcher and consumer interleave: the consumer has received a prefix of
      what was collected, and when the generator stops, the dispatcher has ended and all of it was
      delivered, once and in order. */
  lemma {:induction false} DeliveryIsComplete(g: Graph, inactive: set<NodeId>, s: State, trace: seq<Joint>,
      steps: seq<JointStep>, i: nat)
    requires Wf(g) && Promoted(g) && Fresh(g, inactive, s) && IsJointRun(g, trace, steps) && i < |trace|
    requires trace[0] == Joint(MicroStarted(g, s), Channel([], false, [], Test))
    ensures JointOk(g, inactive, trace[i]) && trace[i].ch.received <= trace[i].ch.events
    ensures trace[i].ch.at.Stopped? ==> trace[i].m.pc.Ended? && trace[i].ch.received == trace[i].ch.events
  {
    hide JointNext, MicroInv, Fresh;
    if i == 0 {
      NewChannelIsOk();
      MicroRunKeepsInv(g, inactive, s, [trace[0].m], [], 0);
    } else {
      DeliveryIsComplete(g, inactive, s, trace, steps, i - 1);
      JointStepKeepsOk(g, inactive, trace[i - 1], steps[i - 1], trace[i]);
    }
    assert trace[i].ch.received <= trace[i].ch.received + Ahead(trace[i].ch);
  }
}
