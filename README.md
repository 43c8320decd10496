# oop4ds core, modelled in Dafny

This project models the object-oriented design-pattern scripts of the
*oop4ds* teaching repository, together with the dunder-method, property,
scoping, abstract-class and multiple-inheritance scripts those patterns build on.
One Dafny module models each script:

- `FlightStates` (`flight_state.dfy`) models the State pattern. A flight moves
  through eight phases. Each phase lists the names of the phases it may switch
  to, and the flight records every target it is asked to change to.
- `Singletons` (`singleton.dfy`) models the Singleton pattern:
  - the plain singleton;
  - a class-wide handout counter;
  - a counter capped at three;
  - a factory singleton that pools three items, checks them out and takes them
    back, including the `with` block whose exit returns the item.
- `Observers` (`observer.dfy`) models the Observer pattern during model training:
  - an observer dispatches each event to every callback that handles it, and
    swallows a callback's exception, including the `KeyError` of a handler
    that reads an entry the state dictionary does not hold;
  - a network's training loop emits the before/after epoch and batch events in a fixed pattern;
  - a metric tracker collects the losses and accuracies it is sent.
- `Dunders` (`dunders.dfy`) models the six `Point` classes of the dunder-method
  script: string forms, `+`, `==`, hashing, and calling the object.
- `Pipelines` (`pipeline.dfy`) models the diamond hierarchy of transforms and
  models, and the pipeline that fits, transforms and predicts with the steps of
  the matching base class.
- `Vehicles` (`vehicle.dfy`) models the abstract vehicle with its speed and its
  two concrete subclasses.
- `Customers` (`customer.dfy`) models the customer record and its
  `fromFullName` class method, which uses Python's `str.split(' ')`.
- `Persons` (`person.dfy`) models the two `Person` classes: plain getters and
  setters, and properties with a read-only `fullName`.
- `Wrappers` (`wrappers.dfy`) holds `Option`, and `Result`/`Outcome` carrying
  the Python exception class raised.

Objects whose attributes the scripts update become Dafny classes with
`modifies` clauses. Each method is specified by functions of the old state,
and the properties are lemmas about those functions. Python exceptions are
`Failure`/`Fail` values naming the exception class. A class attribute such as
a singleton's `_instance` lives in an explicit class object (`...Class`), whose
`New` method stands for the construction `X()`.

Where the docstrings and the code disagree, the model follows the code:

- `returnItem` has no guard against a double return, but `list.remove` raises
  `ValueError` for an item that is not checked out. The model returns that
  failure and leaves both lists unchanged.
- `Flight.change` appends the target to the history even when the switch
  is rejected. The model does the same.
- `checkoutItem` on an empty pool runs `raise('No Resources Available')`.
  Raising a plain string is itself a `TypeError` in Python 3, so the model
  fails with `TypeError`. The capped counter raises a plain `Exception`
  (`RaisedException`).

## Model

| member | source | states |
|---|---|---|
| FlightStates.Name | 43_state.py:25-55 | the class attribute `name` of each state class (a definition; NameInjective proves that no two classes share a name) |
| FlightStates.AllowedNames | 43_state.py:25-55 | the class attribute `allowed` of each state class, in source order (a definition; CanSwitchMatchesGraph ties it to the transition graph) |
| FlightStates.CanSwitch | 43_state.py:12 | the guard `switchTo.name in self.allowed` (a definition; CanSwitchMatchesGraph proves it accepts exactly the edges of the graph) |
| FlightStates.NameInjective | 43_state.py:25-55 | no two state classes share a `name`, so comparing names compares states |
| FlightStates.CanSwitchMatchesGraph | 43_state.py:25-55 | the name-list guard accepts exactly the edges of the eight-state transition graph |
| FlightStates.NoSelfTransition | 43_state.py:25-55 | no state may switch to itself |
| FlightStates.Switch | 43_state.py:10-16 | the new state is the target when its name is in `allowed`, otherwise the state is unchanged |
| FlightStates.SwitchChangesIffAllowed | 43_state.py:10-16 | a switch changes the state if and only if the target is a successor, and the result is the old state or the target |
| FlightStates.AtGateOnlyToTaxiing | 43_state.py:25-27 | from AtGate only Taxiing is accepted; Airborne is rejected |
| FlightStates.AcceptedRunEndsAtLastTarget | 43_state.py:63-66 | after a run of accepted changes the state is the last target |
| FlightStates.RejectedStepKeepsState | 43_state.py:12-16 | a rejected request leaves the state, so the rest of the run starts from it |
| FlightStates.AllAcceptedIffEdges | 43_state.py:63-66 | a run of changes is accepted throughout if and only if each consecutive pair is an edge of the transition graph |
| FlightStates.EdgeRunEndsAtLastTarget | 43_state.py:63-66 | a run along edges of the graph is accepted throughout and ends at its last target |
| FlightStates.DemoRouteIsLegal | 43_state.py:74-84 | every step of flight 75's route is accepted, and the route ends at the gate |
| FlightStates.HistoryNamesAsWritten | 43_state.py:59-70 | as written, history entry 0 prints the current state's name; later entries print the targets |
| FlightStates.HistoryAsWrittenForgetsInitial | 43_state.py:59-70 | after AtGate to Taxiing the as-written history prints Taxiing twice, never AtGate |
| FlightStates.Flight.constructor | 43_state.py:59-61 | the flight starts in the given state with a one-entry history |
| FlightStates.Flight.Change | 43_state.py:63-66 | the state becomes the switch result and the target is appended even when rejected |
| FlightStates.Flight.History | 43_state.py:68-70 | the intended printout, as corrected in the finding below: the names of the recorded states in order, the first being the initial state. HistoryNamesAsWritten models the code as written, whose first entry prints the current state |
| FlightStates.Fly | 43_state.py:63-66 | after asking for each target in turn, the state is the run's result and the history is the initial state followed by all targets |
| FlightStates.DemoHistoryNames | 43_state.py:74-87 | the names of the demonstration's recorded states are the eleven printed names |
| FlightStates.Flight75 | 43_state.py:74-87 | the demonstration ends at AtGate with eleven recorded entries and prints the eleven names of the route |
| Singletons.SingletonClass.New | 41_singleton.py:33-39 | the first call creates a fresh instance; every later call returns the cached one |
| Singletons.ConstructTwice | 41_singleton.py:36-39 | two constructions return the same object |
| Singletons.SingletonDemo | 41_singleton.py:42-47 | `s1 == s2` is True |
| Singletons.TrackingSingletonClass.New | 41_singleton.py:59-62 | construction returns the cached instance and leaves the class-wide count alone |
| Singletons.TrackingSingleton.Handout | 41_singleton.py:64-66 | the class-wide count goes up by one and its new value is returned |
| Singletons.TrackingSingleton.HandedOut | 41_singleton.py:68-69 | returns the class-wide count |
| Singletons.TrackingDemo | 41_singleton.py:72-79 | two constructions share one count: it prints 1, 2, 2, 2 |
| Singletons.CountAfterHandout | 41_singleton.py:104-108 | at the cap the count stays; below it, it goes up by one |
| Singletons.HandoutResult | 41_singleton.py:104-108 | a handout raises exactly at the cap, and otherwise returns the new count |
| Singletons.MaxHandoutSingleton.constructor | 41_singleton.py:90-98 | a new instance has count 0 and cap 3 |
| Singletons.MaxHandoutSingleton.Handout | 41_singleton.py:104-108 | the count and the result follow CountAfterHandout and HandoutResult; the cap is kept |
| Singletons.MaxHandoutSingleton.Turnin | 41_singleton.py:110-111 | the count goes down by one, with no lower bound |
| Singletons.MaxHandoutSingleton.HandedOut | 41_singleton.py:113-114 | returns the count |
| Singletons.MaxHandoutSingletonClass.New | 41_singleton.py:90-98 | the state is set up on the first construction only; later constructions keep the count |
| Singletons.ReplayCounts | 41_singleton.py:104-111 | the count equals the start, plus the granted handouts, minus the turn-ins |
| Singletons.ReplayStaysBelowMax | 41_singleton.py:104-108 | no sequence of handouts and turn-ins takes the count above the cap |
| Singletons.CountInRangeIffTurninsCovered | 41_singleton.py:104-111 | from a fresh instance the count is never above 3, and is at least 0 if and only if turn-ins do not outnumber granted handouts |
| Singletons.TurninFirstGoesNegative | 41_singleton.py:110-111 | a turn-in with nothing handed out makes the count -1 |
| Singletons.MaxHandoutDemo | 41_singleton.py:117-126 | it prints 1, 2, 3, the fourth handout raises, and two turn-ins leave 1 |
| Singletons.PooledIsNotOut | 41_singleton.py:169-187 | an item in the pool is not also handed out |
| Singletons.PartitionIsDisjoint | 41_singleton.py:156-187 | the pool and the handed-out list together hold three distinct items below 3, and no item is in both |
| Singletons.RemoveFirst | 41_singleton.py:186 | `list.remove` makes the list one shorter |
| Singletons.RemoveFirstMultiset | 41_singleton.py:186 | `list.remove` takes out exactly one copy of the item |
| Singletons.RemoveFirstOfFreshLast | 41_singleton.py:176-186 | removing an item just appended, that occurs nowhere else, restores the list |
| Singletons.ReturnKeepsPartition | 41_singleton.py:180-187 | returning a handed-out item keeps the two lists a partition of the three items |
| Singletons.CheckoutThenReturnRestores | 41_singleton.py:169-187 | checking out the last pooled item and returning it restores both lists |
| Singletons.LimitedResourceFactory.constructor | 41_singleton.py:152-153 | a new factory is not yet initialized |
| Singletons.LimitedResourceFactory.Init | 41_singleton.py:156-166 | the first `__init__` fills the pool with items 0, 1, 2; later ones change nothing |
| Singletons.LimitedResourceFactory.CheckoutItem | 41_singleton.py:169-178 | an empty pool raises and changes nothing; otherwise the last pooled item moves to the end of the handed-out list and is returned |
| Singletons.LimitedResourceFactory.ReturnItem | 41_singleton.py:180-187 | an item that is not handed out gives ValueError and changes nothing; otherwise its first occurrence leaves the handed-out list and it goes back to the end of the pool |
| Singletons.LimitedResourceFactory.Status | 41_singleton.py:189-194 | the pooled and handed-out items, in list order |
| Singletons.LimitedResourceFactoryClass.New | 41_singleton.py:149-166 | the first construction returns a fresh factory with pool 0, 1, 2; later ones return the cached factory unchanged |
| Singletons.Exit | 41_singleton.py:140-143 | `__exit__` returns the item to the cached factory, as ReturnItem does |
| Singletons.WithItem | 41_singleton.py:197-202 | a `with` block over a checked-out item leaves both lists as they were, and fails only when the checkout or the body fails |
| Singletons.WithCheckedOutItem | 41_singleton.py:197-202 | constructing the factory and then running the block: on a fresh class the pool ends as 0, 1, 2 |
| Singletons.PoolDemo | 41_singleton.py:197-210 | the four status printouts are ([0,1],[2]), ([0,1,2],[]), ([0,1],[2]) and ([0,1,2],[]) |
| Singletons.ExhaustPool | 41_singleton.py:169-178 | three checkouts hand out items 2, 1, 0, and a fourth raises |
| Observers.Deliveries | 42_observer.py:88-98 | the handler invocations of one `__call__`, in registration order (a definition; DeliveriesCharacterized states what it contains) |
| Observers.DeliveriesCharacterized | 42_observer.py:88-98 | a dispatch calls exactly the callbacks that handle the event, each once, in registration order, with the given state, and records whether each handler raises on that state |
| Observers.RaisingHandlerDoesNotStopDispatch | 42_observer.py:88-98 | a callback that raises is still recorded, and every later callback that handles the event is still called |
| Observers.Observer.constructor | 42_observer.py:76-80 | a new observer has no callbacks |
| Observers.Observer.RegisterCallback | 42_observer.py:82-86 | the callback is appended |
| Observers.Observer.Dispatch | 42_observer.py:88-98 | the calls made are Deliveries of the registered callbacks |
| Observers.DeliverAllSnoc | 42_observer.py:88-98 | dispatching one more event appends its deliveries |
| Observers.DeliverAllAppend | 42_observer.py:88-98 | dispatching two runs of events in turn gives the deliveries of each, in order |
| Observers.BatchEmissions | 42_observer.py:156-184 | `b` batches emit `2*b` events |
| Observers.EpochEmissions | 42_observer.py:156-184 | one epoch emits `2*batches + 2` events |
| Observers.BatchStep | 42_observer.py:170-181 | one more batch adds the before-batch and after-batch events, with the epoch, batch and loss in the state |
| Observers.NeuralNetwork.constructor | 42_observer.py:105-112 | the network's observer holds the given callbacks in order, or none when none are given |
| Observers.NeuralNetwork.Observe | 42_observer.py:114-120 | the state gains `'net'` and is dispatched to every callback |
| Observers.NeuralNetwork.Train | 42_observer.py:156-184 | the emitted events are TrainEmissions, and every one is dispatched in order |
| Observers.NeuralNetwork.TrainEpoch | 42_observer.py:160-183 | one epoch's events and the state after it are EpochEmissions and EpochEnd |
| Observers.TrainEmissions | 42_observer.py:156-184 | the `observe` calls of `train`, epoch by epoch, each with the dictionary as it stands (a definition; TrainFollowsPattern, TrainEmissionAt and TrainProvidesKeys state its shape and contents) |
| Observers.Events | 42_observer.py:156-184 | the event names of a list of emissions (a definition; the pattern lemmas are stated over it) |
| Observers.BatchPatternLength | 42_observer.py:170-181 | the batch pattern has `2*b` events |
| Observers.TrainPatternLength | 42_observer.py:156-184 | the training pattern has `e*(2b+2)` events |
| Observers.BatchEmissionsFollowPattern | 42_observer.py:170-181 | the batches alternate before-batch and after-batch events |
| Observers.EventsDistribute | 42_observer.py:156-184 | the events of a concatenation are the concatenated events |
| Observers.EpochFollowsPattern | 42_observer.py:166-184 | one epoch emits before-epoch, the batch pairs, then after-epoch |
| Observers.TrainFollowsPattern | 42_observer.py:156-184 | training emits before-epoch, then the batch pairs, then after-epoch, once per epoch, `e*(2b+2)` events in all |
| Observers.BatchEmissionAt | 42_observer.py:170-181 | the j-th batch's two events carry that epoch, batch j and its loss |
| Observers.NetIsSetBeforeEveryDispatch | 42_observer.py:114-120 | every dispatched state carries the network |
| Observers.TrainEmissionsLength | 42_observer.py:166-184 | `e` epochs emit `e*(2B+2)` events |
| Observers.TrainBlock | 42_observer.py:156-184 | the events of epoch e in the full run are that epoch's own events |
| Observers.EpochEmissionAt | 42_observer.py:160-183 | in one epoch, the event, epoch, batch, loss and accuracy are at their fixed offsets |
| Observers.TrainEmissionAt | 42_observer.py:156-184 | in the full run, epoch e's before-epoch, batch-b and after-epoch events are at their offsets, with the right epoch, batch, loss and accuracy |
| Observers.TrackerRaisesOnMissingKey | 42_observer.py:218-222 | the tracker's `afterBatch` raises exactly on a state without a loss, its `afterEpoch` exactly on one without an accuracy, and it has no other handler that could raise |
| Observers.DemoCallbacksReadOnlyProvided | 42_observer.py:190-245 | the logging, tracker and learning-rate callbacks raise nowhere on their own and read only entries `train` has set by the time of the event they handle |
| Observers.NoRaiseOnProvided | 42_observer.py:92-98 | such a callback does not raise on a state that holds the entries provided for the event |
| Observers.EpochProvidesKeys | 42_observer.py:166-184 | each event of an epoch is sent with the epoch set, the batch set for the batch events, the loss after a batch and the accuracy after the epoch |
| Observers.TrainProvidesKeys | 42_observer.py:161-184 | the same holds for every event of a whole run |
| Observers.NoRaiseInDispatch | 42_observer.py:92-98 | in the dispatch of such an event, no such callback raises |
| Observers.NoRaiseWhereProvided | 42_observer.py:88-98 | over a whole list of such events, no such callback raises |
| Observers.NoHandlerRaisesDuringTrain | 42_observer.py:156-184 | during `train`, no invocation of such a callback raises |
| Observers.TrackedDistributes | 42_observer.py:213-222 | what a callback records from two delivery runs is the two records concatenated |
| Observers.TrackedSingle | 42_observer.py:213-222 | from one delivery a callback records the metric only if the delivery is its own, for that event, and the key is set |
| Observers.TrackedOfDispatch | 42_observer.py:213-222 | from one dispatch a callback records the metric only if it handles the event |
| Observers.MetricsOfDistributes | 42_observer.py:213-222 | the metrics of two emission runs are concatenated |
| Observers.TrackerSeesEveryEmission | 42_observer.py:213-222 | a callback that handles an event records that metric from every emission of the event, in order |
| Observers.EpochLosses | 42_observer.py:136-141 | one epoch's losses number `b` |
| Observers.AllAccuracies | 42_observer.py:143-148 | one accuracy per epoch |
| Observers.AllLossesLength | 42_observer.py:136-141 | there are `e*batches` losses |
| Observers.MetricsOfSingle | 42_observer.py:213-222 | the metric of one emission is its loss or accuracy, when the event matches |
| Observers.MetricsOfPair | 42_observer.py:213-222 | the metrics of two more emissions are appended in order |
| Observers.BatchMetrics | 42_observer.py:170-181 | the batches yield their losses, in batch order |
| Observers.BatchNoAccuracy | 42_observer.py:170-181 | the batches yield no accuracy |
| Observers.EpochMetrics | 42_observer.py:160-183 | one epoch yields its losses and its one accuracy |
| Observers.TrainMetrics | 42_observer.py:156-184 | training yields every loss in order and one accuracy per epoch |
| Observers.TrackerAfterTrain | 42_observer.py:213-232 | a registered metric tracker sees every loss, `epochs*batches` of them, and every accuracy |
| Observers.MetricTracker.constructor | 42_observer.py:213-216 | both lists start empty |
| Observers.MetricTracker.AfterBatch | 42_observer.py:218-219 | the loss is appended, or KeyError is raised when the state has none |
| Observers.MetricTracker.AfterEpoch | 42_observer.py:221-222 | the accuracy is appended, or KeyError is raised when the state has none |
| Observers.MetricTracker.Receive | 42_observer.py:213-222 | after a run of deliveries, the lists are extended by what the tracker was sent |
| Observers.TwoByTwoMetrics | 42_observer.py:228-232 | two epochs of two batches give four losses and two accuracies, in loop order |
| Observers.TrackerDemo | 42_observer.py:228-232 | two epochs of two batches leave four losses and two accuracies, in order |
| Observers.AnnealingDemo | 42_observer.py:247-253 | with logger, tracker and learning-rate callbacks, 2 epochs of 2 batches raise in no handler and leave the tracker with four losses and two accuracies, in order |
| Dunders.Attr | 11_dunders.py:34-305 | `x`/`y` exist on the first three classes, `_x`/`_y` on the last three, and nothing else |
| Dunders.OwnAttributesExist | 11_dunders.py:34-305 | each point has its own coordinate attributes |
| Dunders.Add | 11_dunders.py:71-88 | V1 has no `__add__` (TypeError); matching layouts add coordinate-wise; otherwise AttributeError |
| Dunders.AddCommutes | 11_dunders.py:87-88 | adding points of one class commutes |
| Dunders.Equals | 11_dunders.py:34-287 | when the left operand's class defines `__eq__`, its answer: coordinate equality on matching layouts, AttributeError otherwise. A V1/V2 left operand is equal to itself; otherwise the right operand's reflected `__eq__` answers, and when neither class defines one, identity decides |
| Dunders.OwnEq | 11_dunders.py:123-126 | the `__eq__` body: coordinate equality when the other point has the attributes it reads, AttributeError otherwise |
| Dunders.EqualsReflexiveAndSymmetric | 11_dunders.py:34-287 | `==` is reflexive, and symmetric for any two objects (one identity being one object), mixed classes included |
| Dunders.MixedEqualsDemo | 11_dunders.py:123-126 | a V1 point equals a V3 point with the same coordinates in either order, and comparing it with a V4 point raises AttributeError in either order |
| Dunders.EqualsReflexiveSymmetric | 11_dunders.py:123-126 | coordinate equality is reflexive, symmetric, and true if and only if both coordinates agree |
| Dunders.Hash | 11_dunders.py:166-195 | V3 defines `__eq__` without `__hash__`, so it is unhashable; V4 to V6 hash the coordinates; V1/V2 hash the identity |
| Dunders.EqualPointsHashEqually | 11_dunders.py:194-195 | equal hashable points have equal hashes |
| Dunders.DictKeyDemo | 11_dunders.py:151-153 | a V3 dict key raises TypeError; a V4 key hashes its coordinates |
| Dunders.Call | 11_dunders.py:301-305 | only V6 is callable: "X"/"x" give x, "Y"/"y" give y, anything else None |
| Dunders.CallOtherIsNone | 11_dunders.py:301-305 | any other argument gives None |
| Dunders.NatToString | 11_dunders.py:46-47 | decimal digits with no leading zero |
| Dunders.DigitCharValue | 11_dunders.py:46-47 | each digit character reads back as its digit |
| Dunders.ParseNatSnoc | 11_dunders.py:46-47 | appending a digit multiplies the value by ten and adds the digit |
| Dunders.ParseNatToString | 11_dunders.py:46-47 | reading the decimal form back gives the number |
| Dunders.ParseNegative | 11_dunders.py:46-47 | a minus sign followed by digits reads back as the negated number |
| Dunders.NonNegativeRoundTrip | 11_dunders.py:46-47 | a non-negative number renders as plain digits that read back as it |
| Dunders.NegativeRoundTrip | 11_dunders.py:46-47 | a negative number renders as a minus sign and digits that read back as it |
| Dunders.IntToString | 11_dunders.py:43-47 | the `str` of an int inside the f-strings: a minus sign for negatives, then the decimal digits (a definition; IntToStringRoundTrip proves it reads back) |
| Dunders.IntToStringRoundTrip | 11_dunders.py:46-47 | the rendering of an integer is digits, possibly after a minus sign, and reads back to the integer |
| Dunders.Str | 11_dunders.py:46-47 | "(x, y)", or AttributeError for V5/V6, whose `__str__` reads the missing `x` |
| Dunders.Repr | 11_dunders.py:42-43 | "Point, " followed by Str, with the same failure |
| Dunders.FirstPointDemo | 11_dunders.py:52-59 | the point (10, 20) prints "(10, 20)" and "Point, (10, 20)" |
| Dunders.AddDemo | 11_dunders.py:91-93 | (5,5) + (10,10) is (15,15) |
| Dunders.EqualsDemo | 11_dunders.py:129-137 | (5,5) differs from (5,10) and from (10,5) and equals (5,5) |
| Dunders.CallDemo | 11_dunders.py:309-311 | calling (5,6) with "X" gives 5 and with "Y" gives 6 |
| Pipelines.IsInstance | 23_multiple_inheritance.py:30-139 | `isinstance` following the base lists of the class statements (a definition; BaseKinds, TransformKinds and ModelKinds list the instances of each base) |
| Pipelines.BaseKinds | 23_multiple_inheritance.py:30-128 | every hierarchy class is a Base; an outside object is not |
| Pipelines.TransformKinds | 23_multiple_inheritance.py:48-128 | the transforms are BaseTransform, Normalize and PCA |
| Pipelines.ModelKinds | 23_multiple_inheritance.py:78-128 | the models are BaseModel, Linear, Logistic and PCA |
| Pipelines.PcaAndNestedPipeline | 23_multiple_inheritance.py:117-139 | PCA is both a model and a transform; a nested pipeline is a Base only |
| Pipelines.Selected | 23_multiple_inheritance.py:146-159 | the positions of the steps an `isinstance`-guarded loop calls (a definition; SelectedCharacterized states what it contains) |
| Pipelines.SelectedCharacterized | 23_multiple_inheritance.py:146-159 | the selection is exactly the steps of the class, each once, in insertion order |
| Pipelines.SelectedAppend | 23_multiple_inheritance.py:143-144 | adding a step extends the selection by its position when it is of the class |
| Pipelines.Pipeline.constructor | 23_multiple_inheritance.py:140-141 | a new pipeline has no steps |
| Pipelines.Pipeline.Add | 23_multiple_inheritance.py:143-144 | the step is appended |
| Pipelines.Pipeline.Visit | 23_multiple_inheritance.py:146-159 | the loop calls exactly the selected steps, in order |
| Pipelines.Pipeline.Fit | 23_multiple_inheritance.py:146-149 | `fit` is called on every Base step |
| Pipelines.Pipeline.Transform | 23_multiple_inheritance.py:151-154 | `transform` is called on every BaseTransform step |
| Pipelines.Pipeline.Predict | 23_multiple_inheritance.py:156-159 | `predict` is called on every BaseModel step |
| Pipelines.NestedPipelineOnlyFit | 23_multiple_inheritance.py:139-159 | a pipeline used as a step is fit but is never transformed or asked to predict |
| Pipelines.DemoSelections | 23_multiple_inheritance.py:165-173 | Normalize, PCA, Linear: fit all three, predict steps 1 and 2, transform steps 0 and 1 |
| Pipelines.PipelineDemo | 23_multiple_inheritance.py:165-173 | the demonstration pipeline calls the methods on those steps |
| Vehicles.NoStopAddsUp | 22_abc.py:93-94 | without a stop, the speed is the start plus every acceleration, unbounded |
| Vehicles.StopForgetsHistory | 22_abc.py:96-97 | after a stop, the speed depends only on the commands that follow |
| Vehicles.Vehicle.constructor | 22_abc.py:82-83 | a new vehicle has speed 0 |
| Vehicles.Vehicle.Accelerate | 22_abc.py:93-94 | the amount is added to the speed |
| Vehicles.Vehicle.Stop | 22_abc.py:96-97 | the speed becomes 0 |
| Vehicles.Vehicle.Drive | 22_abc.py:93-97 | after a command list, the speed is SpeedAfter of the old speed |
| Vehicles.Demo | 22_abc.py:121-131 | the car reaches 60 and the airplane 450, and both end at 0 |
| Vehicles.Fleet | 22_abc.py:134-141 | a car, an airplane and a car: three distinct vehicles, each at 50 |
| Customers.Split | 13_scoping.py:68 | `str.split` gives one more part than there are separators, and no part contains one |
| Customers.JoinSplit | 13_scoping.py:68 | joining the parts of a split gives back the string |
| Customers.SplitJoin | 13_scoping.py:68 | splitting a join of separator-free parts gives back the parts |
| Customers.SplitFree | 13_scoping.py:68 | a string without a separator splits into itself |
| Customers.SplitAround | 13_scoping.py:68 | `a + sep + b`, with no separator in `a`, splits into `a` followed by the split of `b` |
| Customers.FromFullName | 13_scoping.py:66-69 | succeeds if and only if the name has exactly one space, otherwise ValueError; the age passes through |
| Customers.FromFullNameSplitsAtTheSpace | 13_scoping.py:66-69 | a successful result has two space-free names that rejoin, around a space, to the full name |
| Customers.FromFullNameRoundTrip | 13_scoping.py:66-69 | "first last", for space-free names, gives back first and last |
| Customers.FromFullNameDemo | 13_scoping.py:72-76 | "Cindy Williams", 50 gives Customer("Cindy", "Williams", 50) |
| Customers.FromFullNameOneWord | 13_scoping.py:68 | one word cannot be unpacked into two names (ValueError) |
| Customers.FromFullNameThreeParts | 13_scoping.py:66-69 | three space-free words joined by spaces split into three parts, so unpacking fails with ValueError |
| Customers.FromFullNameThreeWords | 13_scoping.py:68 | three words cannot be unpacked into two names (ValueError) |
| Persons.NamedPerson.constructor | 12_property.py:8-9 | the name starts as None |
| Persons.NamedPerson.GetName | 12_property.py:11-12 | returns the stored name |
| Persons.NamedPerson.SetName | 12_property.py:14-15 | replaces the stored name |
| Persons.NamedPersonDemo | 12_property.py:18-22 | None before the set, "Tom" after it |
| Persons.FullNameOf | 12_property.py:54-56 | TypeError if and only if either name is unset; otherwise first, one space, last |
| Persons.FullNameSplitsBack | 12_property.py:54-56 | for space-free names, `fullName` and `Customer.fromFullName` are inverse |
| Persons.Person.constructor | 12_property.py:34-36 | both names start as None |
| Persons.Person.GetFirstName | 12_property.py:38-40 | returns the first name |
| Persons.Person.SetFirstName | 12_property.py:42-44 | sets the first name and leaves the last name |
| Persons.Person.GetLastName | 12_property.py:46-48 | returns the last name |
| Persons.Person.SetLastName | 12_property.py:50-52 | sets the last name and leaves the first name |
| Persons.Person.FullName | 12_property.py:54-56 | the `fullName` getter over the two stored names (a definition; FullNameOf states its result) |
| Persons.Person.SetFullName | 12_property.py:54-56 | `fullName` has no setter: AttributeError, nothing changes |
| Persons.PersonDemo | 12_property.py:60-74 | None first, then "Tom" and "Thumb", full name "Tom Thumb", and a failed assignment |

## Left out

- Printing is not modelled: the logging and learning-rate callbacks' output, the tracker's `__str__`, the factory's `status` printout, `__enter__`/`__exit__` messages, and the `New`/`Init` traces. Where a demonstration prints values, the method returns those values instead.
- Randomness is replaced by parameters: the random loss and accuracy of `computeLoss`/`computeAccuracy` are the `Schedule`'s `lossOf` and `accuracyOf` functions.
- The first `NeuralNetwork` of the observer script is not modelled: it has no observer, and its `train` iterates over an integer. Only the second version is modelled.
- Callbacks could mutate the shared `state` dictionary; the three callbacks here do not write to it, and the model gives them no way to.
- The learning-rate callback only prints the learning rate, so it is modelled as a handler of `afterBatch` that reads no entry set inside the loops.
- A handler raising for any reason other than a missing dictionary entry is modelled by the callback's `raises` set; the three callbacks of the script have none.
- The abstract `Vehicle` cannot be instantiated: the model's `VehicleKind` has only `Car` and `Airplane`, so the TypeError on `Vehicle()` is excluded by type rather than modelled as an error. The subclasses' `move`/`park` methods only print.
- Pipeline steps do no numeric work: `fit`/`transform`/`predict` carry no data, and a run is the list of positions of the steps called. A nested pipeline is one step, and its own steps are not expanded in the trace.
- Python's `hash` of an integer and of a tuple are the parameters `idHash` and `tupleHash`. Object identity is the `id` field of a point.
- `Dunders.Str`: the context-manager point's `__enter__`/`__exit__` only print and are left out. The rendering covers integer coordinates only.
- FlightStates.Flight.constructor: the default argument `state=AtGate()` of 43_state.py:59 is one AtGate object, created when the class is defined and shared by every `Flight()` built without an argument. Because `switch` reassigns that object's class, a second default-built flight would start wherever the first had got to. The model takes the initial state explicitly and gives each flight its own state value, so this sharing is not modelled.
- `Singletons.WithItem`: the body of the `with` block is a boolean saying whether it raised. Items are the ids 0, 1, 2 rather than `LimitedResource` objects.
- `Persons.Person.SetFirstName`: the setters accept strings only; the scripts assign nothing else.
- Name mangling (`p.__firstName` failing from outside the class) is not modelled, because it is an access-control demonstration outside any operation.
- The factory pattern script (`40_factory.py`), the second singleton script (`43_singleton.py`), and the other vocabulary scripts (classes, constructors, encapsulation, inheritance, super, composition, polymorphism) are not part of this model.

## Findings

| source | as written | input that shows it | evidently intended | confidence | as-written member | corrected member |
|---|---|---|---|---|---|---|
| 43_state.py:59-70 | `history` starts with the flight's one state object, which `switch` mutates in place by reassigning its class, so entry 0 always prints the current state's name | AtGate, then `change(Taxiing)`: history prints Taxiing, Taxiing | entry 0 prints the initial state (AtGate, Taxiing) | not executed | FlightStates.HistoryAsWrittenForgetsInitial | FlightStates.Flight.History |
