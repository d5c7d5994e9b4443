/** Handing collected events to the consumer (event_manager.py): the generator that polls the list
    while it grows, and the read-write lock around the list. */
module Emission {
  // ---------- the generator ----------

  /** Where `emit_events` is. */
  datatype At<T> =
    | Test                      // reads the completion flag
    | Compare                   // complete: compares the counts
    | Read                      // copies the new events
    | Yield(batch: seq<T>)      // yields what it copied
    | Stopped

  /** The collected list, the flag, and what the consumer has received; the generator's
      `yielded_count` is the length of the latter. */
  datatype Channel<T> = Channel(events: seq<T>, complete: bool, received: seq<T>, at: At<T>)

  datatype Move<T> = Collect(event: T) | MarkComplete | Consumer

  function Consume<T>(c: Channel<T>): Channel<T> {
    match c.at
    case Test => c.(at := if c.complete then Compare else Read)
    case Compare => c.(at := if |c.received| < |c.events| then Read else Stopped)
    case Read => c.(at := Yield(if |c.received| <= |c.events| then c.events[|c.received|..] else []))
    case Yield(batch) => if batch == [] then c.(at := Test)
      else c.(received := c.received + [batch[0]], at := Yield(batch[1..]))
    case Stopped => c
  }

  /** Nothing is collected once execution is complete. */
  predicate CanMove<T>(c: Channel<T>, m: Move<T>) { m.Collect? ==> !c.complete }

  function MoveChannel<T>(c: Channel<T>, m: Move<T>): Channel<T> {
    match m
    case Collect(ev) => c.(events := c.events + [ev])
    case MarkComplete => c.(complete := true)
    case Consumer => Consume(c)
  }

  function Ahead<T>(c: Channel<T>): seq<T> { if c.at.Yield? then c.at.batch else [] }

  ghost predicate ChannelOk<T>(c: Channel<T>) {
    && c.received + Ahead(c) <= c.events
    && (c.at.Compare? ==> c.complete)
    && (c.at.Stopped? ==> c.complete && c.received == c.events)
  }

  lemma MoveKeepsOk<T>(c: Channel<T>, m: Move<T>)
    requires ChannelOk(c) && CanMove(c, m)
    ensures ChannelOk(MoveChannel(c, m)) && c.received <= MoveChannel(c, m).received
    ensures c.events <= MoveChannel(c, m).events
  {
    var r := MoveChannel(c, m);
    if m.Consumer? && c.at.Read? {
      assert c.received + c.events[|c.received|..] == c.events;
    }
    if m.Consumer? && c.at.Yield? && c.at.batch != [] {
      assert r.received + r.at.batch == c.received + c.at.batch;
    }
  }

  ghost predicate IsChannelRun<T(!new)>(trace: seq<Channel<T>>, moves: seq<Move<T>>) {
    && |trace| == |moves| + 1 && trace[0] == Channel([], false, [], Test)
    && forall i :: 0 <= i < |moves| ==> CanMove(trace[i], moves[i]) && trace[i + 1] == MoveChannel(trace[i], moves[i])
  }

  /** However collecting and consuming interleave, the consumer has received a prefix of the list;
      and when the generator stops, execution is complete and the whole list was delivered, once
      and in order. */
  lemma {:induction false} ConsumerReceivesPrefix<T(!new)>(trace: seq<Channel<T>>, moves: seq<Move<T>>, i: nat)
    requires IsChannelRun(trace, moves) && i < |trace|
    ensures ChannelOk(trace[i]) && trace[i].received <= trace[i].events
    ensures trace[i].at.Stopped? ==> trace[i].complete && trace[i].received == trace[i].events
  {
    if i == 0 {
      var none: seq<T> := [];
      assert none + none <= none;
    } else {
      ConsumerReceivesPrefix(trace, moves, i - 1);
      MoveKeepsOk(trace[i - 1], moves[i - 1]);
    }
    assert trace[i].received <= trace[i].received + Ahead(trace[i]);
  }

  /** Moves that the generator still makes after completion. */
  function Left<T>(c: Channel<T>): nat {
    var left := if |c.received| <= |c.events| then |c.events| - |c.received| else 0;
    5 * left + match c.at
      case Stopped => 0
      case Read => if left > 0 then 1 else 5
      case Compare => 2
      case Test => 3
      case Yield(batch) => if batch == [] then 4 else 0
  }

  function Consumed<T>(c: Channel<T>, n: nat): Channel<T>
    decreases n
  {
    if n == 0 then c else Consumed(Consume(c), n - 1)
  }

  /** After completion the generator ends, with everything delivered. */
  lemma {:induction false} ConsumerEnds<T>(c: Channel<T>)
    requires ChannelOk(c) && c.complete
    ensures Consumed(c, Left(c)).at.Stopped? && Consumed(c, Left(c)).received == c.events
    decreases Left(c)
  {
    if !c.at.Stopped? {
      MoveKeepsOk(c, Consumer);
      var r := Consume(c);
      ConsumerEnds(r);
      StoppedStays(Consumed(r, Left(r)), Left(c) - 1 - Left(r));
      ConsumedAdds(r, Left(r), Left(c) - 1 - Left(r));
    } else {
      StoppedStays(c, Left(c));
    }
  }

  lemma {:induction false} StoppedStays<T>(c: Channel<T>, n: nat)
    requires c.at.Stopped?
    ensures Consumed(c, n) == c
    decreases n
  {
    if n > 0 { StoppedStays(c, n - 1); }
  }

  lemma {:induction false} ConsumedAdds<T>(c: Channel<T>, n: nat, k: nat)
    ensures Consumed(c, n + k) == Consumed(Consumed(c, n), k)
    decreases n
  {
    if n > 0 { ConsumedAdds(Consume(c), n - 1, k); }
  }

  // ---------- the read-write lock ----------

  type Thread = nat

  /** Where a thread is. `Entering`, `Leaving`, `Testing` and `Writing` are inside the mutex of
      the condition variable. */
  datatype Spot = Outside | Entering | Reading | Leaving | Testing | Waiting | Woken | Writing

  datatype Owner = Nobody | Held(thread: Thread)

  datatype Lock = Lock(owner: Owner, readers: int, spot: map<Thread, Spot>)

  function SpotOf(l: Lock, t: Thread): Spot { if t in l.spot then l.spot[t] else Outside }

  function GoTo(l: Lock, t: Thread, s: Spot): Lock { l.(spot := l.spot[t := s]) }

  /** `notify_all`. */
  function WakeAll(l: Lock): Lock {
    l.(spot := map t | t in l.spot :: if l.spot[t] == Waiting then Woken else l.spot[t])
  }

  /** Thread `t` moves on: `write` says which lock it asks for when it is outside. */
  ghost predicate LockStep(l: Lock, t: Thread, write: bool, r: Lock) {
    match SpotOf(l, t)
    case Outside => l.owner == Nobody && r == GoTo(l.(owner := Held(t)), t, if write then Testing else Entering)
    case Entering => r == GoTo(l.(owner := Nobody, readers := l.readers + 1), t, Reading)
    case Reading => l.owner == Nobody && r == GoTo(l.(owner := Held(t)), t, Leaving)
    case Leaving =>
      var l1 := GoTo(l.(owner := Nobody, readers := l.readers - 1), t, Outside);
      r == if l1.readers == 0 then WakeAll(l1) else l1
    case Testing => r == if l.readers > 0 then GoTo(l.(owner := Nobody), t, Waiting) else GoTo(l, t, Writing)
    case Waiting => false
    case Woken => l.owner == Nobody && r == GoTo(l.(owner := Held(t)), t, Testing)
    case Writing => r == GoTo(l.(owner := Nobody), t, Outside)
  }

  predicate Inside(s: Spot) { s.Entering? || s.Leaving? || s.Testing? || s.Writing? }

  function ReadersOf(l: Lock): set<Thread> { set t | t in l.spot && (l.spot[t].Reading? || l.spot[t].Leaving?) }

  /** The mutex has at most one thread inside, the counter counts the readers, and nobody reads
      while a writer is inside. */
  ghost predicate MutexOk(l: Lock) {
    && (forall t :: Inside(SpotOf(l, t)) <==> l.owner == Held(t))
    && l.readers == |ReadersOf(l)|
    && (forall t :: SpotOf(l, t) == Writing ==> l.readers == 0)
  }

  /** Somebody is there to wake a sleeping writer. */
  ghost predicate SleepersOk(l: Lock) {
    forall t :: SpotOf(l, t) == Waiting ==> l.readers > 0
  }

  ghost predicate LockOk(l: Lock) { MutexOk(l) && SleepersOk(l) }

  lemma MovedSpots(l: Lock, t: Thread, s: Spot, r: Lock)
    requires r.spot == l.spot[t := s]
    ensures forall u :: SpotOf(r, u) == if u == t then s else SpotOf(l, u)
    ensures ReadersOf(r) == if s.Reading? || s.Leaving? then ReadersOf(l) + {t} else ReadersOf(l) - {t}
  {
  }

  lemma WokenSpots(l: Lock)
    ensures forall u :: SpotOf(WakeAll(l), u) == if SpotOf(l, u) == Waiting then Woken else SpotOf(l, u)
    ensures ReadersOf(WakeAll(l)) == ReadersOf(l)
  {
  }

  /** Thread `t`, the only one that may be inside the mutex, moves to `s`. */
  lemma MoveKeepsMutex(l: Lock, t: Thread, s: Spot, r: Lock)
    requires MutexOk(l) && (l.owner == Nobody || l.owner == Held(t)) && r.spot == l.spot[t := s]
    requires r.owner == if Inside(s) then Held(t) else Nobody
    requires r.readers == |ReadersOf(r)| && (s == Writing ==> r.readers == 0)
    ensures MutexOk(r)
  {
    MovedSpots(l, t, s, r);
    hide SpotOf, ReadersOf;
    forall u ensures Inside(SpotOf(r, u)) <==> r.owner == Held(u) {
      assert Inside(SpotOf(l, u)) <==> l.owner == Held(u);
    }
  }

  /** The counter follows. */
  lemma CountReaders(l: Lock, t: Thread, s: Spot, r: Lock)
    requires l.readers == |ReadersOf(l)| && r.spot == l.spot[t := s]
    requires r.readers ==
      l.readers + (if s.Reading? || s.Leaving? then 1 else 0)
      - (if SpotOf(l, t).Reading? || SpotOf(l, t).Leaving? then 1 else 0)
    ensures r.readers == |ReadersOf(r)|
  {
    MovedSpots(l, t, s, r);
    assert t in ReadersOf(l) <==> SpotOf(l, t).Reading? || SpotOf(l, t).Leaving?;
    assert t in ReadersOf(l) ==> ReadersOf(l) + {t} == ReadersOf(l);
    assert t !in ReadersOf(l) ==> ReadersOf(l) - {t} == ReadersOf(l);
  }

  /** Where the step takes the thread, before any wake-up. */
  function Target(l: Lock, t: Thread, write: bool): Spot {
    match SpotOf(l, t)
    case Outside => if write then Testing else Entering
    case Entering => Reading
    case Reading => Leaving
    case Leaving => Outside
    case Testing => if l.readers > 0 then Waiting else Writing
    case Waiting => Waiting
    case Woken => Testing
    case Writing => Outside
  }

  lemma WakingKeepsMutex(l: Lock)
    requires MutexOk(l) && l.readers == 0
    ensures LockOk(WakeAll(l))
  {
    WokenSpots(l);
  }

  lemma LockStepKeepsOk(l: Lock, t: Thread, write: bool, r: Lock)
    requires LockOk(l) && LockStep(l, t, write, r)
    ensures LockOk(r)
  {
    var s := Target(l, t, write);
    var wakes := SpotOf(l, t) == Leaving && l.readers == 1;
    var m := if wakes then GoTo(l.(owner := Nobody, readers := 0), t, Outside) else r;
    assert l.owner == Nobody || l.owner == Held(t) by { assert Inside(SpotOf(l, t)) <==> l.owner == Held(t); }
    CountReaders(l, t, s, m);
    MoveKeepsMutex(l, t, s, m);
    if wakes {
      WakingKeepsMutex(m);
    } else {
      SleepersStay(l, t, s, r);
    }
  }

  lemma SleepersStay(l: Lock, t: Thread, s: Spot, r: Lock)
    requires SleepersOk(l) && r.spot == l.spot[t := s] && (s == Waiting ==> r.readers > 0)
    requires l.readers > 0 ==> r.readers > 0
    ensures SleepersOk(r)
  {
    MovedSpots(l, t, s, r);
  }

  /** A writer is never inside with a reader or with another writer, and no writer sleeps while
      there is no reader to wake it. */
  lemma WriterIsAlone(l: Lock, t: Thread, u: Thread)
    requires LockOk(l)
    ensures SpotOf(l, t) == Writing && t != u ==> SpotOf(l, u) != Writing && SpotOf(l, u) != Reading
    ensures SpotOf(l, t) == Waiting ==> exists v :: SpotOf(l, v) == Reading || SpotOf(l, v) == Leaving
  {
    assert SpotOf(l, u) == Reading ==> u in ReadersOf(l);
    if SpotOf(l, t) == Waiting {
      assert ReadersOf(l) != {};
      var v :| v in ReadersOf(l);
      assert SpotOf(l, v) == Reading || SpotOf(l, v) == Leaving;
    }
  }

  /** In every run of any number of threads. */
  lemma {:induction false} LockRunIsOk(trace: seq<Lock>, threads: seq<(Thread, bool)>, i: nat)
    requires |trace| == |threads| + 1 && trace[0] == Lock(Nobody, 0, map[]) && i < |trace|
    requires forall k :: 0 <= k < |threads| ==> LockStep(trace[k], threads[k].0, threads[k].1, trace[k + 1])
    ensures LockOk(trace[i])
  {
    hide LockStep;
    if i == 0 {
      assert ReadersOf(trace[0]) == {};
    } else {
      LockRunIsOk(trace, threads, i - 1);
      LockStepKeepsOk(trace[i - 1], threads[i - 1].0, threads[i - 1].1, trace[i]);
    }
  }
}
