/**
 * The observer pattern around a toy training loop: an observer keeps an
 * ordered list of callbacks and forwards each event, by name, to every
 * callback that has a handler for it; the network's training loop emits a
 * fixed nested sequence of events, each with the shared `state` dictionary;
 * a metric tracker collects the losses and accuracies it is sent.
 *
 * A callback object is described by the set of events it has a handler for,
 * the set of events whose handler raises whatever the state, and the entries
 * of the state each handler reads. A run of the observer is the
 * trace of the handler invocations it makes. Loss and accuracy values, which
 * the source draws at random, are supplied by the caller.
 */
module Observers {
  import opened Wrappers

  /** The event names the training loop emits. */
  datatype Event = BeforeEpoch | BeforeBatch | AfterBatch | AfterEpoch

  /**
   * The entries of the `state` dictionary that `train` sets inside its loops;
   * `epochs`, `batches` and `learning_rate` are set before the loops and are
   * always present.
   */
  datatype Key = EpochKey | BatchKey | LossKey | AccuracyKey

  /**
   * A callback: the events it has a method for, the events whose method
   * raises whatever the state, and the pairs (event, entry) such that its
   * method for the event reads that entry of the state.
   */
  datatype Callback = Callback(handles: set<Event>, raises: set<Event>, needs: set<(Event, Key)>)

  /** `CallbackLogging`: a handler for each of the four events, printing the epoch or the batch index. */
  const LoggingCallback: Callback :=
    Callback({BeforeEpoch, AfterEpoch, BeforeBatch, AfterBatch}, {},
             {(BeforeEpoch, EpochKey), (AfterEpoch, EpochKey), (BeforeBatch, BatchKey), (AfterBatch, BatchKey)})

  /** `CallbackMetricTracker`: handlers for `afterBatch` and `afterEpoch`, reading the loss and the accuracy. */
  const MetricTrackerCallback: Callback :=
    Callback({AfterBatch, AfterEpoch}, {}, {(AfterBatch, LossKey), (AfterEpoch, AccuracyKey)})

  /** `CallbackLearningRate`: a handler for `afterBatch` only, reading `learning_rate`. */
  const LearningRateCallback: Callback := Callback({AfterBatch}, {}, {})

  /** The `state` dictionary of `train`; `None` stands for a key not yet set. */
  datatype TrainState = TrainState(
    epochs: nat,
    batches: nat,
    learningRate: real,
    epoch: Option<nat>,
    batch: Option<nat>,
    loss: Option<real>,
    accuracy: Option<real>,
    net: Option<NeuralNetwork>)

  /** Whether `st` holds entry `k`. */
  predicate IsSet(st: TrainState, k: Key) {
    match k
    case EpochKey => st.epoch.Some?
    case BatchKey => st.batch.Some?
    case LossKey => st.loss.Some?
    case AccuracyKey => st.accuracy.Some?
  }

  /**
   * Whether `c`'s method for `event` raises on `st`: it always raises, or it
   * reads an entry `st` does not hold, which is a `KeyError`.
   */
  predicate Raises(c: Callback, event: Event, st: TrainState) {
    event in c.raises || exists p :: p in c.needs && p.0 == event && !IsSet(st, p.1)
  }

  /** One handler invocation: which callback (by position), for which event, with which state, and whether it raised. */
  datatype Delivery = Delivery(callback: nat, event: Event, state: TrainState, raised: bool)

  /** One call of `observe`: the event and the state it was sent with. */
  datatype Emission = Emission(event: Event, state: TrainState)

  /**
   * The invocations `Observer.__call__` makes for one event: the callbacks
   * that have a handler, in registration order. A missing handler and an
   * exception raised by a handler are both swallowed.
   */
  function Deliveries(callbacks: seq<Callback>, event: Event, st: TrainState): seq<Delivery>
    decreases |callbacks|
  {
    if callbacks == [] then []
    else
      var n := |callbacks| - 1;
      var c := callbacks[n];
      Deliveries(callbacks[..n], event, st)
      + (if event in c.handles then [Delivery(n, event, st, Raises(c, event, st))] else [])
  }

  /**
   * One dispatch invokes exactly the callbacks that have a handler for the
   * event, each once, in registration order, with the event and state it was
   * given, whether or not an earlier handler raised.
   */
  lemma {:induction false} DeliveriesCharacterized(callbacks: seq<Callback>, event: Event, st: TrainState)
    ensures var r := Deliveries(callbacks, event, st);
            && (forall k :: 0 <= k < |r| ==>
                 && r[k].callback < |callbacks|
                 && r[k].event == event && r[k].state == st
                 && event in callbacks[r[k].callback].handles
                 && r[k].raised == Raises(callbacks[r[k].callback], event, st))
            && (forall k, l :: 0 <= k < l < |r| ==> r[k].callback < r[l].callback)
            && (forall i :: 0 <= i < |callbacks| ==>
                 (event in callbacks[i].handles <==> exists k :: 0 <= k < |r| && r[k].callback == i))
    decreases |callbacks|
  {
    if callbacks != [] {
      var n := |callbacks| - 1;
      var c := callbacks[n];
      var prefix := Deliveries(callbacks[..n], event, st);
      DeliveriesCharacterized(callbacks[..n], event, st);
      var r := Deliveries(callbacks, event, st);
      var tail := if event in c.handles then [Delivery(n, event, st, Raises(c, event, st))] else [];
      assert r == prefix + tail;
      assert forall i :: 0 <= i < n ==> callbacks[..n][i] == callbacks[i];
      assert forall k :: 0 <= k < |prefix| ==> r[k] == prefix[k];
      forall i | 0 <= i < |callbacks|
        ensures event in callbacks[i].handles <==> exists k :: 0 <= k < |r| && r[k].callback == i
      {
        if i == n && event in c.handles {
          assert r[|prefix|].callback == n;
        }
      }
    }
  }

  /** A handler that raises does not stop the callbacks registered after it from being called. */
  lemma RaisingHandlerDoesNotStopDispatch(callbacks: seq<Callback>, event: Event, st: TrainState, i: nat, j: nat)
    requires i < j < |callbacks|
    requires event in callbacks[i].handles && Raises(callbacks[i], event, st)
    requires event in callbacks[j].handles
    ensures exists k :: 0 <= k < |Deliveries(callbacks, event, st)| &&
                        Deliveries(callbacks, event, st)[k].callback == i &&
                        Deliveries(callbacks, event, st)[k].raised
    ensures exists k :: 0 <= k < |Deliveries(callbacks, event, st)| &&
                        Deliveries(callbacks, event, st)[k].callback == j
  {
    var r := Deliveries(callbacks, event, st);
    DeliveriesCharacterized(callbacks, event, st);
    var k :| 0 <= k < |r| && r[k].callback == i;
    assert r[k].raised;
  }

  /** The observer: the ordered list of registered callbacks. */
  class Observer {
    var callbacks: seq<Callback>

    constructor ()
      ensures callbacks == []
    {
      callbacks := [];
    }

    /** `registerCallback`: appends to the list. */
    method RegisterCallback(c: Callback)
      modifies this
      ensures callbacks == old(callbacks) + [c]
    {
      callbacks := callbacks + [c];
    }

    /** `__call__`: tries each callback in turn and records the handlers it invokes. */
    method Dispatch(event: Event, st: TrainState) returns (delivered: seq<Delivery>)
      ensures delivered == Deliveries(callbacks, event, st)
    {
      delivered := [];
      for i := 0 to |callbacks|
        invariant delivered == Deliveries(callbacks[..i], event, st)
      {
        var c := callbacks[i];
        assert callbacks[..i + 1][..i] == callbacks[..i];
        if event in c.handles {
          delivered := delivered + [Delivery(i, event, st, Raises(c, event, st))];
        }
      }
      assert callbacks[..|callbacks|] == callbacks;
    }
  }

  /** All invocations made for a sequence of emitted events, in order. */
  function DeliverAll(callbacks: seq<Callback>, emitted: seq<Emission>): seq<Delivery>
    decreases |emitted|
  {
    if emitted == [] then []
    else
      var n := |emitted| - 1;
      DeliverAll(callbacks, emitted[..n]) + Deliveries(callbacks, emitted[n].event, emitted[n].state)
  }

  lemma DeliverAllSnoc(callbacks: seq<Callback>, emitted: seq<Emission>, e: Emission)
    ensures DeliverAll(callbacks, emitted + [e]) ==
            DeliverAll(callbacks, emitted) + Deliveries(callbacks, e.event, e.state)
  {
    assert (emitted + [e])[..|emitted|] == emitted;
  }

  lemma {:induction false} DeliverAllAppend(callbacks: seq<Callback>, a: seq<Emission>, b: seq<Emission>)
    ensures DeliverAll(callbacks, a + b) == DeliverAll(callbacks, a) + DeliverAll(callbacks, b)
    decreases |b|
  {
    if b == [] {
      assert a + b == a;
    } else {
      var n := |b| - 1;
      assert a + b == (a + b[..n]) + [b[n]];
      assert b == b[..n] + [b[n]];
      DeliverAllSnoc(callbacks, a + b[..n], b[n]);
      DeliverAllSnoc(callbacks, b[..n], b[n]);
      DeliverAllAppend(callbacks, a, b[..n]);
    }
  }

  /** The loss and accuracy values a run draws, and the loop bounds it is given. */
  datatype Schedule = Schedule(
    epochs: nat,
    batches: nat,
    learningRate: real,
    lossOf: (nat, nat) -> real,
    accuracyOf: nat -> real)

  /** The dictionary right after `train` sets its first three keys. */
  function InitialState(sch: Schedule): TrainState {
    TrainState(sch.epochs, sch.batches, sch.learningRate, None, None, None, None, None)
  }

  /** The state after the first `b` batches of epoch `e`, starting from `st`. */
  function AfterBatches(st: TrainState, sch: Schedule, net: NeuralNetwork, e: nat, b: nat): TrainState {
    if b == 0 then st
    else st.(batch := Some(b - 1), loss := Some(sch.lossOf(e, b - 1)), net := Some(net))
  }

  /** The `beforeBatch` and `afterBatch` emissions of the first `b` batches of epoch `e`. */
  function BatchEmissions(st: TrainState, sch: Schedule, net: NeuralNetwork, e: nat, b: nat): (r: seq<Emission>)
    ensures |r| == 2 * b
  {
    if b == 0 then []
    else
      var before := AfterBatches(st, sch, net, e, b - 1).(batch := Some(b - 1), net := Some(net));
      var after := before.(loss := Some(sch.lossOf(e, b - 1)));
      BatchEmissions(st, sch, net, e, b - 1) + [Emission(BeforeBatch, before), Emission(AfterBatch, after)]
  }

  /** The state sent with `beforeEpoch` of epoch `e`. */
  function EpochStart(st: TrainState, net: NeuralNetwork, e: nat): TrainState {
    st.(epoch := Some(e), net := Some(net))
  }

  /** The state sent with `afterEpoch` of epoch `e`, which is also the state the next epoch starts from. */
  function EpochEnd(st: TrainState, sch: Schedule, net: NeuralNetwork, e: nat): TrainState {
    AfterBatches(EpochStart(st, net, e), sch, net, e, sch.batches).(
      accuracy := Some(sch.accuracyOf(e)), net := Some(net))
  }

  /** The emissions of epoch `e`, starting from state `st`. */
  function EpochEmissions(st: TrainState, sch: Schedule, net: NeuralNetwork, e: nat): (r: seq<Emission>)
    ensures |r| == 2 * sch.batches + 2
  {
    [Emission(BeforeEpoch, EpochStart(st, net, e))]
    + BatchEmissions(EpochStart(st, net, e), sch, net, e, sch.batches)
    + [Emission(AfterEpoch, EpochEnd(st, sch, net, e))]
  }

  /** The dictionary at the start of epoch `e`: the keys of the previous epochs persist. */
  function StateBeforeEpoch(sch: Schedule, net: NeuralNetwork, e: nat): TrainState {
    if e == 0 then InitialState(sch) else EpochEnd(StateBeforeEpoch(sch, net, e - 1), sch, net, e - 1)
  }

  /** The emissions of the first `e` epochs of `train`. */
  function TrainEmissions(sch: Schedule, net: NeuralNetwork, e: nat): seq<Emission> {
    if e == 0 then []
    else TrainEmissions(sch, net, e - 1) + EpochEmissions(StateBeforeEpoch(sch, net, e - 1), sch, net, e - 1)
  }

  /** One more batch appends its two emissions and moves the state on by that batch. */
  lemma BatchStep(st: TrainState, sch: Schedule, net: NeuralNetwork, e: nat, b: nat)
    ensures var before: TrainState := AfterBatches(st, sch, net, e, b).(batch := Some(b), net := Some(net));
            var after: TrainState := before.(loss := Some(sch.lossOf(e, b)), net := Some(net));
            && BatchEmissions(st, sch, net, e, b + 1)
               == BatchEmissions(st, sch, net, e, b) + [Emission(BeforeBatch, before), Emission(AfterBatch, after)]
            && AfterBatches(st, sch, net, e, b + 1) == after
  {
  }

  /** The network: an observer and the callbacks registered with it. */
  class NeuralNetwork {
    const observer: Observer

    /** `__init__`: registers the given callbacks in order; `None` registers none. */
    constructor (callbacks: Option<seq<Callback>>)
      ensures fresh(observer)
      ensures observer.callbacks == if callbacks.Some? then callbacks.value else []
    {
      var obs := new Observer();
      observer := obs;
      if callbacks.Some? {
        var cs := callbacks.value;
        for i := 0 to |cs|
          invariant fresh(obs)
          invariant obs.callbacks == cs[..i]
        {
          obs.RegisterCallback(cs[i]);
          assert cs[..i + 1] == cs[..i] + [cs[i]];
        }
        assert cs[..|cs|] == cs;
      }
    }

    /** `observe`: puts the network into the state under `net`, then dispatches. */
    method Observe(action: Event, st: TrainState) returns (next: TrainState, delivered: seq<Delivery>)
      ensures next == st.(net := Some(this))
      ensures delivered == Deliveries(observer.callbacks, action, next)
    {
      next := st.(net := Some(this));
      delivered := observer.Dispatch(action, next);
    }

    /**
     * `train`: for each epoch, `beforeEpoch`, then `beforeBatch` and
     * `afterBatch` for each batch, then `afterEpoch`, updating the shared state
     * dictionary before each event.
     */
    method Train(sch: Schedule) returns (emitted: seq<Emission>, delivered: seq<Delivery>)
      ensures emitted == TrainEmissions(sch, this, sch.epochs)
      ensures delivered == DeliverAll(observer.callbacks, emitted)
    {
      var st := InitialState(sch);
      emitted, delivered := [], [];
      for epoch := 0 to sch.epochs
        invariant st == StateBeforeEpoch(sch, this, epoch)
        invariant emitted == TrainEmissions(sch, this, epoch)
        invariant delivered == DeliverAll(observer.callbacks, emitted)
      {
        var epochEmitted, epochDelivered;
        DeliverAllAppend(observer.callbacks, emitted, EpochEmissions(st, sch, this, epoch));
        st, epochEmitted, epochDelivered := TrainEpoch(sch, epoch, st);
        emitted, delivered := emitted + epochEmitted, delivered + epochDelivered;
      }
    }

    /** The body of `train`'s epoch loop, from the dictionary as the previous epoch left it. */
    method TrainEpoch(sch: Schedule, epoch: nat, st0: TrainState)
      returns (st: TrainState, emitted: seq<Emission>, delivered: seq<Delivery>)
      ensures st == EpochEnd(st0, sch, this, epoch)
      ensures emitted == EpochEmissions(st0, sch, this, epoch)
      ensures delivered == DeliverAll(observer.callbacks, emitted)
    {
      var d;
      st := st0.(epoch := Some(epoch));
      st, d := Observe(BeforeEpoch, st);
      DeliverAllSnoc(observer.callbacks, [], Emission(BeforeEpoch, st));
      emitted, delivered := [Emission(BeforeEpoch, st)], d;
      ghost var start := st;
      assert start == EpochStart(st0, this, epoch);
      for batch := 0 to sch.batches
        invariant st == AfterBatches(start, sch, this, epoch, batch)
        invariant emitted == [Emission(BeforeEpoch, start)] + BatchEmissions(start, sch, this, epoch, batch)
        invariant delivered == DeliverAll(observer.callbacks, emitted)
      {
        ghost var before := emitted;
        BatchStep(start, sch, this, epoch, batch);
        st := st.(batch := Some(batch));
        st, d := Observe(BeforeBatch, st);
        DeliverAllSnoc(observer.callbacks, emitted, Emission(BeforeBatch, st));
        emitted, delivered := emitted + [Emission(BeforeBatch, st)], delivered + d;
        ghost var beforeState := st;
        var loss := sch.lossOf(epoch, batch);
        st := st.(loss := Some(loss));
        st, d := Observe(AfterBatch, st);
        DeliverAllSnoc(observer.callbacks, emitted, Emission(AfterBatch, st));
        emitted, delivered := emitted + [Emission(AfterBatch, st)], delivered + d;
        assert emitted == before + [Emission(BeforeBatch, beforeState), Emission(AfterBatch, st)];
      }
      var accuracy := sch.accuracyOf(epoch);
      st := st.(accuracy := Some(accuracy));
      st, d := Observe(AfterEpoch, st);
      DeliverAllSnoc(observer.callbacks, emitted, Emission(AfterEpoch, st));
      emitted, delivered := emitted + [Emission(AfterEpoch, st)], delivered + d;
    }
  }

  // ---------------------------------------------------------------------------
  // The shape of a run

  /** The events of a sequence of emissions. */
  function Events(emitted: seq<Emission>): seq<Event> {
    seq(|emitted|, k requires 0 <= k < |emitted| => emitted[k].event)
  }

  /** `b` pairs of `beforeBatch`, `afterBatch`. */
  function BatchPattern(b: nat): seq<Event> {
    if b == 0 then [] else BatchPattern(b - 1) + [BeforeBatch, AfterBatch]
  }

  /** The event pattern of `e` epochs of `b` batches each, written without any state. */
  function TrainPattern(e: nat, b: nat): seq<Event> {
    if e == 0 then [] else TrainPattern(e - 1, b) + [BeforeEpoch] + BatchPattern(b) + [AfterEpoch]
  }

  lemma {:induction false} BatchPatternLength(b: nat)
    ensures |BatchPattern(b)| == 2 * b
  {
    if b > 0 { BatchPatternLength(b - 1); }
  }

  /** The pattern holds `e * (2b + 2)` events. */
  lemma {:induction false} TrainPatternLength(e: nat, b: nat)
    ensures |TrainPattern(e, b)| == e * (2 * b + 2)
  {
    if e > 0 {
      TrainPatternLength(e - 1, b);
      BatchPatternLength(b);
      assert (e - 1) * (2 * b + 2) + (2 * b + 2) == e * (2 * b + 2);
    }
  }

  lemma {:induction false} BatchEmissionsFollowPattern(st: TrainState, sch: Schedule, net: NeuralNetwork, e: nat, b: nat)
    ensures Events(BatchEmissions(st, sch, net, e, b)) == BatchPattern(b)
  {
    if b > 0 {
      BatchEmissionsFollowPattern(st, sch, net, e, b - 1);
    }
  }

  lemma EventsDistribute(a: seq<Emission>, b: seq<Emission>)
    ensures Events(a + b) == Events(a) + Events(b)
  {
  }

  /** One epoch emits `beforeEpoch`, the batch pairs, then `afterEpoch`. */
  lemma EpochFollowsPattern(st: TrainState, sch: Schedule, net: NeuralNetwork, e: nat)
    ensures Events(EpochEmissions(st, sch, net, e)) == [BeforeEpoch] + BatchPattern(sch.batches) + [AfterEpoch]
  {
    var start := EpochStart(st, net, e);
    var first := [Emission(BeforeEpoch, start)];
    var middle := BatchEmissions(start, sch, net, e, sch.batches);
    var last := [Emission(AfterEpoch, EpochEnd(st, sch, net, e))];
    BatchEmissionsFollowPattern(start, sch, net, e, sch.batches);
    EventsDistribute(first + middle, last);
    EventsDistribute(first, middle);
  }

  /**
   * `train(E, B)` emits, for each epoch, `beforeEpoch`, then `B` pairs of
   * `beforeBatch` and `afterBatch`, then `afterEpoch`: E * (2B + 2) events.
   */
  lemma {:induction false} TrainFollowsPattern(sch: Schedule, net: NeuralNetwork, e: nat)
    ensures Events(TrainEmissions(sch, net, e)) == TrainPattern(e, sch.batches)
    ensures |TrainEmissions(sch, net, e)| == e * (2 * sch.batches + 2)
  {
    if e > 0 {
      var prev := TrainEmissions(sch, net, e - 1);
      var st := StateBeforeEpoch(sch, net, e - 1);
      var block := EpochEmissions(st, sch, net, e - 1);
      var epochPattern := [BeforeEpoch] + BatchPattern(sch.batches) + [AfterEpoch];
      assert Events(prev) == TrainPattern(e - 1, sch.batches) by {
        TrainFollowsPattern(sch, net, e - 1);
      }
      assert Events(block) == epochPattern by {
        EpochFollowsPattern(st, sch, net, e - 1);
      }
      assert Events(prev + block) == Events(prev) + Events(block) by {
        EventsDistribute(prev, block);
      }
      assert TrainPattern(e, sch.batches) == TrainPattern(e - 1, sch.batches) + epochPattern;
    }
    TrainEmissionsLength(sch, net, e);
  }

  // ---------------------------------------------------------------------------
  // The state sent with each event

  /** Within an epoch, batch `j` is sent with `batch == j` and, after the batch, its own loss. */
  lemma {:induction false} BatchEmissionAt(st: TrainState, sch: Schedule, net: NeuralNetwork, e: nat, b: nat, j: nat)
    requires j < b
    ensures |BatchEmissions(st, sch, net, e, b)| == 2 * b
    ensures var em := BatchEmissions(st, sch, net, e, b);
            && em[2 * j].event == BeforeBatch
            && em[2 * j].state == st.(batch := Some(j), net := Some(net),
                                      loss := if j == 0 then st.loss else Some(sch.lossOf(e, j - 1)))
            && em[2 * j + 1].event == AfterBatch
            && em[2 * j + 1].state == st.(batch := Some(j), net := Some(net), loss := Some(sch.lossOf(e, j)))
  {
    if j < b - 1 {
      BatchEmissionAt(st, sch, net, e, b - 1, j);
    }
  }

  /** In every emission of a run `net` is the network itself. */
  lemma {:induction false} NetIsSetBeforeEveryDispatch(sch: Schedule, net: NeuralNetwork, e: nat)
    ensures forall k :: 0 <= k < |TrainEmissions(sch, net, e)| ==> TrainEmissions(sch, net, e)[k].state.net == Some(net)
  {
    if e > 0 {
      NetIsSetBeforeEveryDispatch(sch, net, e - 1);
      var st := StateBeforeEpoch(sch, net, e - 1);
      var start := EpochStart(st, net, e - 1);
      var batches := BatchEmissions(start, sch, net, e - 1, sch.batches);
      forall j | 0 <= j < |batches| ensures batches[j].state.net == Some(net) {
        BatchEmissionAt(start, sch, net, e - 1, sch.batches, j / 2);
      }
    }
  }

  /** `e` epochs emit `e * (2B + 2)` events. */
  lemma {:induction false} TrainEmissionsLength(sch: Schedule, net: NeuralNetwork, e: nat)
    ensures |TrainEmissions(sch, net, e)| == e * (2 * sch.batches + 2)
  {
    if e > 0 {
      TrainEmissionsLength(sch, net, e - 1);
      assert (e - 1) * (2 * sch.batches + 2) + (2 * sch.batches + 2) == e * (2 * sch.batches + 2);
    }
  }

  /** Arithmetic for `TrainBlock`: a block that starts before the n-th ends inside the run. */
  lemma BlockBound(e: nat, n: nat, w: nat)
    requires e < n
    ensures e * w + w <= n * w
  {
    assert (n - e) * w >= w by {
      assert n - e >= 1;
    }
    assert n * w == e * w + (n - e) * w;
  }

  /** Epoch `e` of a run of `n` epochs occupies positions `e * w` to `e * w + w - 1`, `w` being the epoch length. */
  lemma {:induction false} TrainBlock(sch: Schedule, net: NeuralNetwork, n: nat, e: nat, j: nat)
    requires e < n && j < 2 * sch.batches + 2
    ensures |TrainEmissions(sch, net, n)| == n * (2 * sch.batches + 2)
    ensures e * (2 * sch.batches + 2) + j < n * (2 * sch.batches + 2)
    ensures TrainEmissions(sch, net, n)[e * (2 * sch.batches + 2) + j]
            == EpochEmissions(StateBeforeEpoch(sch, net, e), sch, net, e)[j]
  {
    var w := 2 * sch.batches + 2;
    TrainEmissionsLength(sch, net, n);
    TrainEmissionsLength(sch, net, n - 1);
    BlockBound(e, n, w);
    var prev := TrainEmissions(sch, net, n - 1);
    var block := EpochEmissions(StateBeforeEpoch(sch, net, n - 1), sch, net, n - 1);
    assert TrainEmissions(sch, net, n) == prev + block;
    if e < n - 1 {
      TrainBlock(sch, net, n - 1, e, j);
    } else {
      assert |prev| == e * w;
    }
  }

  /** Within one epoch: the event and the loop indices at each offset. */
  lemma EpochEmissionAt(st: TrainState, sch: Schedule, net: NeuralNetwork, e: nat, b: nat)
    requires b < sch.batches
    ensures |EpochEmissions(st, sch, net, e)| == 2 * sch.batches + 2
    ensures var em := EpochEmissions(st, sch, net, e);
            && em[0].event == BeforeEpoch && em[0].state.epoch == Some(e)
            && em[1 + 2 * b].event == BeforeBatch
            && em[1 + 2 * b].state.epoch == Some(e) && em[1 + 2 * b].state.batch == Some(b)
            && em[2 + 2 * b].event == AfterBatch
            && em[2 + 2 * b].state.epoch == Some(e) && em[2 + 2 * b].state.batch == Some(b)
            && em[2 + 2 * b].state.loss == Some(sch.lossOf(e, b))
            && em[2 * sch.batches + 1].event == AfterEpoch
            && em[2 * sch.batches + 1].state.epoch == Some(e)
            && em[2 * sch.batches + 1].state.accuracy == Some(sch.accuracyOf(e))
  {
    var start := EpochStart(st, net, e);
    var batches := BatchEmissions(start, sch, net, e, sch.batches);
    BatchEmissionAt(start, sch, net, e, sch.batches, b);
    var em := EpochEmissions(st, sch, net, e);
    assert em[1 + 2 * b] == batches[2 * b];
    assert em[2 + 2 * b] == batches[2 * b + 1];
  }

  /**
   * At each position of the run, the event and the loop indices in the state:
   * epoch `e` starts at `e * (2B + 2)`, its batch `b` sends `beforeBatch` at
   * offset `1 + 2b` and `afterBatch` at `2 + 2b`, and `afterEpoch` comes at
   * offset `2B + 1`.
   */
  lemma TrainEmissionAt(sch: Schedule, net: NeuralNetwork, n: nat, e: nat, b: nat)
    requires e < n && b < sch.batches
    ensures |TrainEmissions(sch, net, n)| == n * (2 * sch.batches + 2)
    ensures var em := TrainEmissions(sch, net, n);
            var base := e * (2 * sch.batches + 2);
            && base + 2 * sch.batches + 1 < |em|
            && em[base].event == BeforeEpoch && em[base].state.epoch == Some(e)
            && em[base + 1 + 2 * b].event == BeforeBatch
            && em[base + 1 + 2 * b].state.epoch == Some(e) && em[base + 1 + 2 * b].state.batch == Some(b)
            && em[base + 2 + 2 * b].event == AfterBatch
            && em[base + 2 + 2 * b].state.epoch == Some(e) && em[base + 2 + 2 * b].state.batch == Some(b)
            && em[base + 2 + 2 * b].state.loss == Some(sch.lossOf(e, b))
            && em[base + 2 * sch.batches + 1].event == AfterEpoch
            && em[base + 2 * sch.batches + 1].state.epoch == Some(e)
            && em[base + 2 * sch.batches + 1].state.accuracy == Some(sch.accuracyOf(e))
  {
    var w := 2 * sch.batches + 2;
    EpochEmissionAt(StateBeforeEpoch(sch, net, e), sch, net, e, b);
    TrainBlock(sch, net, n, e, 0);
    TrainBlock(sch, net, n, e, 1 + 2 * b);
    TrainBlock(sch, net, n, e, 2 + 2 * b);
    TrainBlock(sch, net, n, e, 2 * sch.batches + 1);
  }

  // ---------------------------------------------------------------------------
  // The entries each event is sent with

  /**
   * The entries `train` has set when it emits `event`: the epoch always,
   * the batch for the two batch events, the loss after a batch and the
   * accuracy after an epoch.
   */
  predicate Provided(event: Event, k: Key) {
    match k
    case EpochKey => true
    case BatchKey => event == BeforeBatch || event == AfterBatch
    case LossKey => event == AfterBatch
    case AccuracyKey => event == AfterEpoch
  }

  /** The emission's state holds every entry provided for its event. */
  predicate KeysProvided(em: Emission) {
    forall k :: Provided(em.event, k) ==> IsSet(em.state, k)
  }

  /** A callback that raises nowhere and reads only provided entries. */
  predicate ReadsOnlyProvided(c: Callback) {
    c.raises == {} && forall p :: p in c.needs ==> Provided(p.0, p.1)
  }

  /** The three callbacks of the demonstrations read only provided entries. */
  lemma DemoCallbacksReadOnlyProvided()
    ensures ReadsOnlyProvided(LoggingCallback)
    ensures ReadsOnlyProvided(MetricTrackerCallback)
    ensures ReadsOnlyProvided(LearningRateCallback)
  {
  }

  /** The metric tracker's `afterBatch` raises exactly on a state without a loss, and `afterEpoch` without an accuracy. */
  lemma TrackerRaisesOnMissingKey(st: TrainState)
    ensures Raises(MetricTrackerCallback, AfterBatch, st) <==> st.loss.None?
    ensures Raises(MetricTrackerCallback, AfterEpoch, st) <==> st.accuracy.None?
    ensures !Raises(MetricTrackerCallback, BeforeEpoch, st) && !Raises(MetricTrackerCallback, BeforeBatch, st)
  {
    if st.loss.None? {
      assert (AfterBatch, LossKey) in MetricTrackerCallback.needs;
    }
    if st.accuracy.None? {
      assert (AfterEpoch, AccuracyKey) in MetricTrackerCallback.needs;
    }
  }

  /** A callback that reads only provided entries does not raise on an emission that carries them. */
  lemma NoRaiseOnProvided(c: Callback, em: Emission)
    requires ReadsOnlyProvided(c) && KeysProvided(em)
    ensures !Raises(c, em.event, em.state)
  {
  }

  /** Every emission of one epoch carries the entries provided for its event. */
  lemma EpochProvidesKeys(st: TrainState, sch: Schedule, net: NeuralNetwork, e: nat)
    ensures forall j :: 0 <= j < |EpochEmissions(st, sch, net, e)| ==> KeysProvided(EpochEmissions(st, sch, net, e)[j])
  {
    var start := EpochStart(st, net, e);
    var batches := BatchEmissions(start, sch, net, e, sch.batches);
    var em := EpochEmissions(st, sch, net, e);
    assert em == [Emission(BeforeEpoch, start)] + batches + [Emission(AfterEpoch, EpochEnd(st, sch, net, e))];
    forall j | 0 <= j < |em| ensures KeysProvided(em[j]) {
      if j == 0 {
        assert em[j] == Emission(BeforeEpoch, start);
      } else if j == |em| - 1 {
        assert em[j] == Emission(AfterEpoch, EpochEnd(st, sch, net, e));
      } else {
        assert em[j] == batches[j - 1];
        BatchEmissionAt(start, sch, net, e, sch.batches, (j - 1) / 2);
      }
    }
  }

  /** Every emission of a run carries the entries provided for its event. */
  lemma {:induction false} TrainProvidesKeys(sch: Schedule, net: NeuralNetwork, e: nat)
    ensures forall k :: 0 <= k < |TrainEmissions(sch, net, e)| ==> KeysProvided(TrainEmissions(sch, net, e)[k])
  {
    if e > 0 {
      var prev := TrainEmissions(sch, net, e - 1);
      var block := EpochEmissions(StateBeforeEpoch(sch, net, e - 1), sch, net, e - 1);
      assert forall k :: 0 <= k < |prev| ==> KeysProvided(prev[k]) by {
        TrainProvidesKeys(sch, net, e - 1);
      }
      assert forall j :: 0 <= j < |block| ==> KeysProvided(block[j]) by {
        EpochProvidesKeys(StateBeforeEpoch(sch, net, e - 1), sch, net, e - 1);
      }
      assert TrainEmissions(sch, net, e) == prev + block;
    }
  }

  /** Callbacks that read only provided entries do not raise in the dispatch of an emission that carries them. */
  lemma NoRaiseInDispatch(callbacks: seq<Callback>, em: Emission)
    requires forall i :: 0 <= i < |callbacks| ==> ReadsOnlyProvided(callbacks[i])
    requires KeysProvided(em)
    ensures forall k :: 0 <= k < |Deliveries(callbacks, em.event, em.state)| ==>
              !Deliveries(callbacks, em.event, em.state)[k].raised
  {
    var ev, st := em.event, em.state;
    var r := Deliveries(callbacks, ev, st);
    DeliveriesCharacterized(callbacks, ev, st);
    forall k | 0 <= k < |r| ensures !r[k].raised {
      NoRaiseOnProvided(callbacks[r[k].callback], em);
    }
  }

  /** Callbacks that read only provided entries raise on no emission that carries them. */
  lemma {:induction false} NoRaiseWhereProvided(callbacks: seq<Callback>, emitted: seq<Emission>)
    requires forall i :: 0 <= i < |callbacks| ==> ReadsOnlyProvided(callbacks[i])
    requires forall m :: 0 <= m < |emitted| ==> KeysProvided(emitted[m])
    ensures forall k :: 0 <= k < |DeliverAll(callbacks, emitted)| ==> !DeliverAll(callbacks, emitted)[k].raised
    decreases |emitted|
  {
    if emitted != [] {
      var n := |emitted| - 1;
      var em := emitted[n];
      var prev := DeliverAll(callbacks, emitted[..n]);
      var last := Deliveries(callbacks, em.event, em.state);
      assert forall k :: 0 <= k < |prev| ==> !prev[k].raised by {
        NoRaiseWhereProvided(callbacks, emitted[..n]);
      }
      assert forall k :: 0 <= k < |last| ==> !last[k].raised by {
        NoRaiseInDispatch(callbacks, em);
      }
      assert DeliverAll(callbacks, emitted) == prev + last;
    }
  }

  /**
   * During `train`, a handler that reads only provided entries never raises:
   * the demonstrations' callbacks are never interrupted.
   */
  lemma NoHandlerRaisesDuringTrain(callbacks: seq<Callback>, sch: Schedule, net: NeuralNetwork)
    requires forall i :: 0 <= i < |callbacks| ==> ReadsOnlyProvided(callbacks[i])
    ensures var ds := DeliverAll(callbacks, TrainEmissions(sch, net, sch.epochs));
            forall k :: 0 <= k < |ds| ==> !ds[k].raised
  {
    TrainProvidesKeys(sch, net, sch.epochs);
    NoRaiseWhereProvided(callbacks, TrainEmissions(sch, net, sch.epochs));
  }

  // ---------------------------------------------------------------------------
  // The metric tracker

  /** The value a tracker's handler for `event` reads from the state, if present. */
  function Metric(st: TrainState, event: Event): Option<real> {
    if event == AfterBatch then st.loss else if event == AfterEpoch then st.accuracy else None
  }

  /**
   * What the callback at position `t` appends to its list for `event` while
   * receiving `ds`: one value per invocation for that event whose key is set
   * (a missing key raises inside the handler, which is swallowed).
   */
  function Tracked(ds: seq<Delivery>, t: nat, event: Event): seq<real>
    decreases |ds|
  {
    if ds == [] then []
    else
      var d := ds[|ds| - 1];
      Tracked(ds[..|ds| - 1], t, event)
      + (if d.callback == t && d.event == event && Metric(d.state, event).Some?
         then [Metric(d.state, event).value] else [])
  }

  lemma {:induction false} TrackedDistributes(a: seq<Delivery>, b: seq<Delivery>, t: nat, event: Event)
    ensures Tracked(a + b, t, event) == Tracked(a, t, event) + Tracked(b, t, event)
    decreases |b|
  {
    if b == [] {
      assert a + b == a;
    } else {
      var n := |b| - 1;
      assert (a + b)[..|a + b| - 1] == a + b[..n];
      TrackedDistributes(a, b[..n], t, event);
    }
  }

  /** What a callback records from a single delivery. */
  lemma TrackedSingle(d: Delivery, t: nat, event: Event)
    ensures Tracked([d], t, event)
            == if d.callback == t && d.event == event && Metric(d.state, event).Some?
               then [Metric(d.state, event).value] else []
  {
    assert [d][..0] == [];
  }

  /** One dispatch sends callback `t` exactly one invocation when it handles the event. */
  lemma {:induction false} TrackedOfDispatch(callbacks: seq<Callback>, ev: Event, st: TrainState, t: nat, event: Event)
    ensures Tracked(Deliveries(callbacks, ev, st), t, event) ==
            if t < |callbacks| && ev == event && ev in callbacks[t].handles && Metric(st, event).Some?
            then [Metric(st, event).value] else []
    decreases |callbacks|
  {
    if callbacks != [] {
      var n := |callbacks| - 1;
      var prefix := Deliveries(callbacks[..n], ev, st);
      var c := callbacks[n];
      var tail := if ev in c.handles then [Delivery(n, ev, st, Raises(c, ev, st))] else [];
      assert Deliveries(callbacks, ev, st) == prefix + tail;
      TrackedOfDispatch(callbacks[..n], ev, st, t, event);
      TrackedDistributes(prefix, tail, t, event);
      if ev in c.handles {
        TrackedSingle(Delivery(n, ev, st, Raises(c, ev, st)), t, event);
      } else {
        assert Tracked(tail, t, event) == [];
      }
      if t < n {
        assert callbacks[..n][t] == callbacks[t];
        assert Tracked(tail, t, event) == [];
      }
    }
  }

  /** The values of `event`'s key sent with the emissions of that event, in order. */
  function MetricsOf(emitted: seq<Emission>, event: Event): seq<real>
    decreases |emitted|
  {
    if emitted == [] then []
    else
      var em := emitted[|emitted| - 1];
      MetricsOf(emitted[..|emitted| - 1], event)
      + (if em.event == event && Metric(em.state, event).Some? then [Metric(em.state, event).value] else [])
  }

  lemma {:induction false} MetricsOfDistributes(a: seq<Emission>, b: seq<Emission>, event: Event)
    ensures MetricsOf(a + b, event) == MetricsOf(a, event) + MetricsOf(b, event)
    decreases |b|
  {
    if b == [] {
      assert a + b == a;
    } else {
      var n := |b| - 1;
      assert (a + b)[..|a + b| - 1] == a + b[..n];
      MetricsOfDistributes(a, b[..n], event);
    }
  }

  /** A callback that handles `event` is sent every value of that event's key. */
  lemma {:induction false} TrackerSeesEveryEmission(callbacks: seq<Callback>, emitted: seq<Emission>, t: nat, event: Event)
    requires t < |callbacks| && event in callbacks[t].handles
    ensures Tracked(DeliverAll(callbacks, emitted), t, event) == MetricsOf(emitted, event)
    decreases |emitted|
  {
    if emitted != [] {
      var n := |emitted| - 1;
      TrackerSeesEveryEmission(callbacks, emitted[..n], t, event);
      TrackedDistributes(DeliverAll(callbacks, emitted[..n]),
                         Deliveries(callbacks, emitted[n].event, emitted[n].state), t, event);
      TrackedOfDispatch(callbacks, emitted[n].event, emitted[n].state, t, event);
    }
  }

  /** The losses of the first `b` batches of epoch `e`, in loop order. */
  function EpochLosses(sch: Schedule, e: nat, b: nat): (r: seq<real>)
    ensures |r| == b
  {
    if b == 0 then [] else EpochLosses(sch, e, b - 1) + [sch.lossOf(e, b - 1)]
  }

  /** The losses of the first `e` epochs, in loop order. */
  function AllLosses(sch: Schedule, e: nat): seq<real> {
    if e == 0 then [] else AllLosses(sch, e - 1) + EpochLosses(sch, e - 1, sch.batches)
  }

  /** The accuracies of the first `e` epochs, in loop order. */
  function AllAccuracies(sch: Schedule, e: nat): (r: seq<real>)
    ensures |r| == e
  {
    if e == 0 then [] else AllAccuracies(sch, e - 1) + [sch.accuracyOf(e - 1)]
  }

  lemma {:induction false} AllLossesLength(sch: Schedule, e: nat)
    ensures |AllLosses(sch, e)| == e * sch.batches
  {
    if e > 0 {
      AllLossesLength(sch, e - 1);
      assert (e - 1) * sch.batches + sch.batches == e * sch.batches;
    }
  }

  lemma MetricsOfSingle(em: Emission, event: Event)
    ensures MetricsOf([em], event)
            == if em.event == event && Metric(em.state, event).Some? then [Metric(em.state, event).value] else []
  {
    assert [em][..0] == [];
  }

  /** The metrics of two more emissions are those of each, appended. */
  lemma MetricsOfPair(prefix: seq<Emission>, x: Emission, y: Emission, event: Event)
    ensures MetricsOf(prefix + [x, y], event) == MetricsOf(prefix, event) + MetricsOf([x], event) + MetricsOf([y], event)
  {
    assert prefix + [x, y] == (prefix + [x]) + [y];
    MetricsOfDistributes(prefix + [x], [y], event);
    MetricsOfDistributes(prefix, [x], event);
  }

  /** The batches of an epoch send their losses, in batch order. */
  lemma {:induction false} BatchMetrics(st: TrainState, sch: Schedule, net: NeuralNetwork, e: nat, b: nat)
    ensures MetricsOf(BatchEmissions(st, sch, net, e, b), AfterBatch) == EpochLosses(sch, e, b)
  {
    if b > 0 {
      var before := AfterBatches(st, sch, net, e, b - 1).(batch := Some(b - 1), net := Some(net));
      var after := before.(loss := Some(sch.lossOf(e, b - 1)));
      var x, y := Emission(BeforeBatch, before), Emission(AfterBatch, after);
      BatchMetrics(st, sch, net, e, b - 1);
      var prefix := BatchEmissions(st, sch, net, e, b - 1);
      assert BatchEmissions(st, sch, net, e, b) == prefix + [x, y];
      MetricsOfPair(prefix, x, y, AfterBatch);
      MetricsOfSingle(x, AfterBatch);
      MetricsOfSingle(y, AfterBatch);
      assert MetricsOf([x], AfterBatch) == [];
      assert MetricsOf([y], AfterBatch) == [sch.lossOf(e, b - 1)];
    }
  }

  /** The batches of an epoch send no accuracy. */
  lemma {:induction false} BatchNoAccuracy(st: TrainState, sch: Schedule, net: NeuralNetwork, e: nat, b: nat)
    ensures MetricsOf(BatchEmissions(st, sch, net, e, b), AfterEpoch) == []
  {
    if b > 0 {
      var before := AfterBatches(st, sch, net, e, b - 1).(batch := Some(b - 1), net := Some(net));
      var after := before.(loss := Some(sch.lossOf(e, b - 1)));
      var x, y := Emission(BeforeBatch, before), Emission(AfterBatch, after);
      var prefix := BatchEmissions(st, sch, net, e, b - 1);
      assert BatchEmissions(st, sch, net, e, b) == prefix + [x, y];
      assert MetricsOf(prefix, AfterEpoch) == [] by {
        BatchNoAccuracy(st, sch, net, e, b - 1);
      }
      assert MetricsOf([x], AfterEpoch) == [] by {
        MetricsOfSingle(x, AfterEpoch);
      }
      assert MetricsOf([y], AfterEpoch) == [] by {
        MetricsOfSingle(y, AfterEpoch);
      }
      MetricsOfPair(prefix, x, y, AfterEpoch);
    }
  }

  /** One epoch sends its `B` losses in batch order and one accuracy. */
  lemma EpochMetrics(st: TrainState, sch: Schedule, net: NeuralNetwork, e: nat)
    ensures MetricsOf(EpochEmissions(st, sch, net, e), AfterBatch) == EpochLosses(sch, e, sch.batches)
    ensures MetricsOf(EpochEmissions(st, sch, net, e), AfterEpoch) == [sch.accuracyOf(e)]
  {
    var start := EpochStart(st, net, e);
    var first := Emission(BeforeEpoch, start);
    var middle := BatchEmissions(start, sch, net, e, sch.batches);
    var last := Emission(AfterEpoch, EpochEnd(st, sch, net, e));
    BatchMetrics(start, sch, net, e, sch.batches);
    BatchNoAccuracy(start, sch, net, e, sch.batches);
    MetricsOfDistributes([first] + middle, [last], AfterBatch);
    MetricsOfDistributes([first], middle, AfterBatch);
    MetricsOfDistributes([first] + middle, [last], AfterEpoch);
    MetricsOfDistributes([first], middle, AfterEpoch);
    MetricsOfSingle(first, AfterBatch);
    MetricsOfSingle(last, AfterBatch);
    MetricsOfSingle(first, AfterEpoch);
    MetricsOfSingle(last, AfterEpoch);
  }

  lemma {:induction false} TrainMetrics(sch: Schedule, net: NeuralNetwork, e: nat)
    ensures MetricsOf(TrainEmissions(sch, net, e), AfterBatch) == AllLosses(sch, e)
    ensures MetricsOf(TrainEmissions(sch, net, e), AfterEpoch) == AllAccuracies(sch, e)
  {
    if e > 0 {
      TrainMetrics(sch, net, e - 1);
      var block := EpochEmissions(StateBeforeEpoch(sch, net, e - 1), sch, net, e - 1);
      EpochMetrics(StateBeforeEpoch(sch, net, e - 1), sch, net, e - 1);
      MetricsOfDistributes(TrainEmissions(sch, net, e - 1), block, AfterBatch);
      MetricsOfDistributes(TrainEmissions(sch, net, e - 1), block, AfterEpoch);
    }
  }

  /**
   * After one `train(E, B)` a registered metric tracker holds the E * B losses
   * and the E accuracies of the run, in loop order.
   */
  lemma TrackerAfterTrain(callbacks: seq<Callback>, sch: Schedule, net: NeuralNetwork, t: nat)
    requires t < |callbacks| && callbacks[t] == MetricTrackerCallback
    ensures var ds := DeliverAll(callbacks, TrainEmissions(sch, net, sch.epochs));
            && Tracked(ds, t, AfterBatch) == AllLosses(sch, sch.epochs)
            && |Tracked(ds, t, AfterBatch)| == sch.epochs * sch.batches
            && Tracked(ds, t, AfterEpoch) == AllAccuracies(sch, sch.epochs)
  {
    var emitted := TrainEmissions(sch, net, sch.epochs);
    TrackerSeesEveryEmission(callbacks, emitted, t, AfterBatch);
    TrackerSeesEveryEmission(callbacks, emitted, t, AfterEpoch);
    TrainMetrics(sch, net, sch.epochs);
    AllLossesLength(sch, sch.epochs);
  }

  /** `CallbackMetricTracker`: the lists of losses and accuracies it was sent. */
  class MetricTracker {
    var losses: seq<real>
    var accuracy: seq<real>

    constructor ()
      ensures losses == [] && accuracy == []
    {
      losses, accuracy := [], [];
    }

    /** `afterBatch`: appends the state's loss; a missing key raises. */
    method AfterBatch(st: TrainState) returns (r: Outcome)
      modifies this
      ensures accuracy == old(accuracy)
      ensures r.Fail? <==> st.loss.None?
      ensures losses == old(losses) + (if st.loss.Some? then [st.loss.value] else [])
    {
      if st.loss.None? {
        return Fail(KeyError);
      }
      losses := losses + [st.loss.value];
      return Pass;
    }

    /** `afterEpoch`: appends the state's accuracy; a missing key raises. */
    method AfterEpoch(st: TrainState) returns (r: Outcome)
      modifies this
      ensures losses == old(losses)
      ensures r.Fail? <==> st.accuracy.None?
      ensures accuracy == old(accuracy) + (if st.accuracy.Some? then [st.accuracy.value] else [])
    {
      if st.accuracy.None? {
        return Fail(KeyError);
      }
      accuracy := accuracy + [st.accuracy.value];
      return Pass;
    }

    /** Runs this tracker's handlers for the invocations addressed to position `t`, in order. */
    method Receive(ds: seq<Delivery>, t: nat)
      modifies this
      ensures losses == old(losses) + Tracked(ds, t, Event.AfterBatch)
      ensures accuracy == old(accuracy) + Tracked(ds, t, Event.AfterEpoch)
    {
      for i := 0 to |ds|
        invariant losses == old(losses) + Tracked(ds[..i], t, Event.AfterBatch)
        invariant accuracy == old(accuracy) + Tracked(ds[..i], t, Event.AfterEpoch)
      {
        assert ds[..i + 1][..i] == ds[..i];
        var d := ds[i];
        if d.callback == t && d.event == Event.AfterBatch {
          var _ := AfterBatch(d.state);
        } else if d.callback == t && d.event == Event.AfterEpoch {
          var _ := AfterEpoch(d.state);
        }
      }
      assert ds[..|ds|] == ds;
    }
  }

  /** Two epochs of two batches give four losses and two accuracies, in loop order. */
  lemma TwoByTwoMetrics(sch: Schedule)
    requires sch.batches == 2
    ensures AllLosses(sch, 2) == [sch.lossOf(0, 0), sch.lossOf(0, 1), sch.lossOf(1, 0), sch.lossOf(1, 1)]
    ensures AllAccuracies(sch, 2) == [sch.accuracyOf(0), sch.accuracyOf(1)]
  {
    assert EpochLosses(sch, 0, 2) == [sch.lossOf(0, 0), sch.lossOf(0, 1)];
    assert EpochLosses(sch, 1, 2) == [sch.lossOf(1, 0), sch.lossOf(1, 1)];
    assert AllLosses(sch, 1) == EpochLosses(sch, 0, 2);
    assert AllLosses(sch, 2) == EpochLosses(sch, 0, 2) + EpochLosses(sch, 1, 2);
  }

  /**
   * The demonstration: a logger and a tracker registered with a new network,
   * which trains 2 epochs of 2 batches; the tracker ends with four losses and
   * two accuracies.
   */
  method TrackerDemo(lossOf: (nat, nat) -> real, accuracyOf: nat -> real)
    returns (losses: seq<real>, accuracy: seq<real>)
    ensures losses == [lossOf(0, 0), lossOf(0, 1), lossOf(1, 0), lossOf(1, 1)]
    ensures accuracy == [accuracyOf(0), accuracyOf(1)]
  {
    var tracker := new MetricTracker();
    var ann := new NeuralNetwork(Some([LoggingCallback, MetricTrackerCallback]));
    var sch := Schedule(2, 2, 0.001, lossOf, accuracyOf);
    var emitted, delivered := ann.Train(sch);
    TrackerAfterTrain(ann.observer.callbacks, sch, ann, 1);
    TwoByTwoMetrics(sch);
    tracker.Receive(delivered, 1);
    losses, accuracy := tracker.losses, tracker.accuracy;
  }

  /**
   * The last demonstration: a logger, a tracker and a learning-rate callback
   * registered with a new network, which trains 2 epochs of 2 batches; no
   * handler raises, and the tracker ends with four losses and two accuracies.
   */
  method AnnealingDemo(lossOf: (nat, nat) -> real, accuracyOf: nat -> real)
    returns (delivered: seq<Delivery>, losses: seq<real>, accuracy: seq<real>)
    ensures forall k :: 0 <= k < |delivered| ==> !delivered[k].raised
    ensures losses == [lossOf(0, 0), lossOf(0, 1), lossOf(1, 0), lossOf(1, 1)]
    ensures accuracy == [accuracyOf(0), accuracyOf(1)]
  {
    var tracker := new MetricTracker();
    var callbacks := [LoggingCallback, MetricTrackerCallback, LearningRateCallback];
    var ann := new NeuralNetwork(Some(callbacks));
    var sch := Schedule(2, 2, 0.001, lossOf, accuracyOf);
    var emitted;
    emitted, delivered := ann.Train(sch);
    DemoCallbacksReadOnlyProvided();
    NoHandlerRaisesDuringTrain(callbacks, sch, ann);
    TrackerAfterTrain(callbacks, sch, ann, 1);
    TwoByTwoMetrics(sch);
    tracker.Receive(delivered, 1);
    losses, accuracy := tracker.losses, tracker.accuracy;
  }
}
