/**
 * The flight state machine: eight flight phases, each with the fixed list of
 * phase names it may switch to, and a flight that holds its current phase and
 * the list of every phase it was asked to change to.
 *
 * The source represents the current phase by reassigning the class of one
 * state object; here the phase is a plain enumeration held in a field.
 */
module FlightStates {

  datatype State = AtGate | Taxiing | Airborne | Climbing | Cruising | Descending | Landing | Holding

  /** The class attribute `name` of each state class. */
  function Name(s: State): string {
    match s
    case AtGate => "AtGate"
    case Taxiing => "Taxiing"
    case Airborne => "Airborne"
    case Climbing => "Climbing"
    case Cruising => "Cruising"
    case Descending => "Descending"
    case Landing => "Landing"
    case Holding => "Holding"
  }

  /** The class attribute `allowed`: the names a state may switch to, in source order. */
  function AllowedNames(s: State): seq<string> {
    match s
    case AtGate => ["Taxiing"]
    case Taxiing => ["AtGate", "Holding", "Airborne"]
    case Airborne => ["Climbing"]
    case Climbing => ["Cruising", "Descending"]
    case Cruising => ["Climbing", "Descending"]
    case Descending => ["Landing"]
    case Landing => ["Taxiing"]
    case Holding => ["Taxiing"]
  }

  /** The guard of `switch`: the target's name occurs in the current state's allowed list. */
  predicate CanSwitch(current: State, target: State) {
    Name(target) in AllowedNames(current)
  }

  /** The transition graph written as sets of states, independently of the name lists. */
  function Successors(s: State): set<State> {
    match s
    case AtGate => {Taxiing}
    case Taxiing => {AtGate, Holding, Airborne}
    case Airborne => {Climbing}
    case Climbing => {Cruising, Descending}
    case Cruising => {Climbing, Descending}
    case Descending => {Landing}
    case Landing => {Taxiing}
    case Holding => {Taxiing}
  }

  /** Two state classes never share a name, so comparing names compares states. */
  lemma NameInjective(s: State, t: State)
    ensures Name(s) == Name(t) <==> s == t
  {
    if Name(s) == Name(t) {
      match s
      case AtGate => assert Name(t)[0] == 'A' && Name(t)[1] == 't';
      case Taxiing => assert Name(t)[0] == 'T';
      case Airborne => assert Name(t)[0] == 'A' && Name(t)[1] == 'i';
      case Climbing => assert Name(t)[0] == 'C' && Name(t)[1] == 'l';
      case Cruising => assert Name(t)[0] == 'C' && Name(t)[1] == 'r';
      case Descending => assert Name(t)[0] == 'D';
      case Landing => assert Name(t)[0] == 'L';
      case Holding => assert Name(t)[0] == 'H';
    }
  }

  /** The name-list guard accepts exactly the edges of the transition graph. */
  lemma CanSwitchMatchesGraph(current: State, target: State)
    ensures CanSwitch(current, target) <==> target in Successors(current)
  {
    forall n | n in AllowedNames(current)
      ensures exists t: State :: Name(t) == n && t in Successors(current)
    {
      match current
      case AtGate => assert Name(Taxiing) == n;
      case Taxiing =>
        if n == "AtGate" { assert Name(AtGate) == n; }
        else if n == "Holding" { assert Name(Holding) == n; }
        else { assert Name(Airborne) == n; }
      case Airborne => assert Name(Climbing) == n;
      case Climbing =>
        if n == "Cruising" { assert Name(Cruising) == n; } else { assert Name(Descending) == n; }
      case Cruising =>
        if n == "Climbing" { assert Name(Climbing) == n; } else { assert Name(Descending) == n; }
      case Descending => assert Name(Landing) == n;
      case Landing => assert Name(Taxiing) == n;
      case Holding => assert Name(Taxiing) == n;
    }
    if CanSwitch(current, target) {
      var t: State :| Name(t) == Name(target) && t in Successors(current);
      NameInjective(t, target);
    }
  }

  /** No state lists itself among the states it may switch to. */
  lemma NoSelfTransition(s: State)
    ensures !CanSwitch(s, s)
  {
    CanSwitchMatchesGraph(s, s);
  }

  /**
   * `FlightState.switch`: the state becomes the target when the guard accepts
   * it and is left as it is otherwise.
   */
  function Switch(current: State, target: State): (next: State)
    ensures CanSwitch(current, target) ==> next == target
    ensures !CanSwitch(current, target) ==> next == current
  {
    if CanSwitch(current, target) then target else current
  }

  /** A switch changes the state exactly when the target is an allowed successor. */
  lemma SwitchChangesIffAllowed(current: State, target: State)
    ensures Switch(current, target) != current <==> target in Successors(current)
    ensures Switch(current, target) == current || Switch(current, target) == target
  {
    CanSwitchMatchesGraph(current, target);
    NoSelfTransition(current);
  }

  /** From AtGate only Taxiing is accepted; asking for Airborne leaves the flight at the gate. */
  lemma AtGateOnlyToTaxiing(target: State)
    ensures CanSwitch(AtGate, target) <==> target == Taxiing
    ensures Switch(AtGate, Airborne) == AtGate
  {
    CanSwitchMatchesGraph(AtGate, target);
    CanSwitchMatchesGraph(AtGate, Airborne);
  }

  /** The state reached by asking for each target in turn. */
  function Run(initial: State, targets: seq<State>): State
    decreases |targets|
  {
    if targets == [] then initial else Run(Switch(initial, targets[0]), targets[1..])
  }

  /** Every request of `targets`, made in turn from `initial`, is accepted. */
  predicate AllAccepted(initial: State, targets: seq<State>)
    decreases |targets|
  {
    targets == [] || (CanSwitch(initial, targets[0]) && AllAccepted(targets[0], targets[1..]))
  }

  /** When every change was accepted, the last target asked for is the current state. */
  lemma {:induction false} AcceptedRunEndsAtLastTarget(initial: State, targets: seq<State>)
    requires targets != [] && AllAccepted(initial, targets)
    ensures Run(initial, targets) == targets[|targets| - 1]
    decreases |targets|
  {
    if |targets| > 1 {
      AcceptedRunEndsAtLastTarget(targets[0], targets[1..]);
    }
  }

  /** A rejected request leaves the state as it was, so the run continues from there. */
  lemma {:induction false} RejectedStepKeepsState(initial: State, target: State, rest: seq<State>)
    requires !CanSwitch(initial, target)
    ensures Run(initial, [target] + rest) == Run(initial, rest)
  {
    assert ([target] + rest)[1..] == rest;
  }

  /** The route flown by flight 75 in the demonstration. */
  const DemoRoute: seq<State> :=
    [Taxiing, Holding, Taxiing, Airborne, Climbing, Cruising, Descending, Landing, Taxiing, AtGate]

  /** Each target of the run is a successor of the state before it in the run. */
  predicate StepsAreEdges(initial: State, targets: seq<State>) {
    && (targets != [] ==> targets[0] in Successors(initial))
    && forall i :: 1 <= i < |targets| ==> targets[i] in Successors(targets[i - 1])
  }

  /** A run is accepted throughout exactly when each consecutive pair is an edge of the graph. */
  lemma {:induction false} AllAcceptedIffEdges(initial: State, targets: seq<State>)
    ensures AllAccepted(initial, targets) <==> StepsAreEdges(initial, targets)
    decreases |targets|
  {
    if targets != [] {
      var rest := targets[1..];
      CanSwitchMatchesGraph(initial, targets[0]);
      AllAcceptedIffEdges(targets[0], rest);
      assert forall i :: 0 <= i < |rest| ==> rest[i] == targets[i + 1];
      assert StepsAreEdges(targets[0], rest) <==> forall i :: 1 <= i < |targets| ==> targets[i] in Successors(targets[i - 1]) by {
        if StepsAreEdges(targets[0], rest) {
          forall i | 1 <= i < |targets| ensures targets[i] in Successors(targets[i - 1]) {
            if i > 1 { assert rest[i - 1] in Successors(rest[i - 2]); }
          }
        }
      }
    }
  }

  /** A run along edges of the graph is accepted throughout and ends at its last target. */
  lemma EdgeRunEndsAtLastTarget(initial: State, targets: seq<State>)
    requires targets != [] && StepsAreEdges(initial, targets)
    ensures AllAccepted(initial, targets)
    ensures Run(initial, targets) == targets[|targets| - 1]
  {
    AllAcceptedIffEdges(initial, targets);
    AcceptedRunEndsAtLastTarget(initial, targets);
  }

  /** Every step of the demonstration route is legal and it ends back at the gate. */
  lemma DemoRouteIsLegal()
    ensures AllAccepted(AtGate, DemoRoute)
    ensures Run(AtGate, DemoRoute) == AtGate
  {
    forall i | 1 <= i < |DemoRoute| ensures DemoRoute[i] in Successors(DemoRoute[i - 1]) {
      if i == 1 {} else if i == 2 {} else if i == 3 {} else if i == 4 {} else if i == 5 {}
      else if i == 6 {} else if i == 7 {} else if i == 8 {} else {}
    }
    EdgeRunEndsAtLastTarget(AtGate, DemoRoute);
  }

  /**
   * What `Flight.history` prints as the source is written: its first entry is
   * the very state object that `switch` keeps reassigning, so it prints the
   * name of the current state rather than that of the initial one.
   */
  function HistoryNamesAsWritten(current: State, history: seq<State>): (names: seq<string>)
    requires |history| >= 1
    ensures |names| == |history|
    ensures names[0] == Name(current)
    ensures forall i :: 1 <= i < |history| ==> names[i] == Name(history[i])
  {
    [Name(current)] + seq(|history| - 1, i requires 0 <= i < |history| - 1 => Name(history[i + 1]))
  }

  /** After one accepted change from AtGate to Taxiing the as-written history prints Taxiing twice. */
  lemma HistoryAsWrittenForgetsInitial()
    ensures HistoryNamesAsWritten(Taxiing, [AtGate, Taxiing]) == ["Taxiing", "Taxiing"]
    ensures HistoryNamesAsWritten(Taxiing, [AtGate, Taxiing])[0] != Name(AtGate)
  {
  }

  /** A flight: its current state and every target it was asked to change to. */
  class Flight {
    const initial: State
    var state: State
    var history: seq<State>

    ghost predicate Valid()
      reads this
    {
      |history| >= 1 && history[0] == initial
    }

    /** `Flight.__init__`, with the initial state passed explicitly. */
    constructor (initialState: State)
      ensures Valid()
      ensures initial == initialState && state == initialState && history == [initialState]
    {
      initial := initialState;
      state := initialState;
      history := [initialState];
    }

    /**
     * `Flight.change`: asks the current state to switch, then records the
     * target whether or not the switch was accepted.
     */
    method Change(target: State)
      requires Valid()
      modifies this
      ensures Valid()
      ensures state == Switch(old(state), target)
      ensures history == old(history) + [target]
    {
      state := Switch(state, target);
      history := history + [target];
    }

    /** `Flight.history`: the names of the recorded states, oldest first, starting with the initial state. */
    method History() returns (names: seq<string>)
      requires Valid()
      ensures |names| == |history|
      ensures names[0] == Name(initial)
      ensures forall i :: 0 <= i < |history| ==> names[i] == Name(history[i])
    {
      names := [];
      for i := 0 to |history|
        invariant |names| == i
        invariant forall j :: 0 <= j < i ==> names[j] == Name(history[j])
      {
        names := names + [Name(history[i])];
      }
    }
  }

  /** A new flight asked for each of `targets` in turn. */
  method Fly(initialState: State, targets: seq<State>) returns (f: Flight)
    ensures fresh(f) && f.Valid()
    ensures f.state == Run(initialState, targets)
    ensures f.history == [initialState] + targets
  {
    f := new Flight(initialState);
    for i := 0 to |targets|
      invariant f.Valid() && f.initial == initialState
      invariant Run(f.state, targets[i..]) == Run(initialState, targets)
      invariant f.history == [initialState] + targets[..i]
    {
      assert targets[i..][1..] == targets[i + 1..];
      f.Change(targets[i]);
      assert targets[..i + 1] == targets[..i] + [targets[i]];
    }
    assert targets[..|targets|] == targets;
  }

  /** The names printed for the demonstration route, the initial gate first. */
  const DemoHistory: seq<string> :=
    ["AtGate", "Taxiing", "Holding", "Taxiing", "Airborne", "Climbing",
     "Cruising", "Descending", "Landing", "Taxiing", "AtGate"]

  /** Naming each state of the demonstration history gives the printed list. */
  lemma DemoHistoryNames(names: seq<string>)
    requires |names| == 1 + |DemoRoute|
    requires forall i :: 0 <= i < |names| ==> names[i] == Name(([AtGate] + DemoRoute)[i])
    ensures names == DemoHistory
  {
    var h := [AtGate] + DemoRoute;
    forall i | 0 <= i < |names| ensures names[i] == DemoHistory[i] {
      assert names[i] == Name(h[i]);
      if i == 0 {} else if i == 1 {} else if i == 2 {} else if i == 3 {} else if i == 4 {} else if i == 5 {}
      else if i == 6 {} else if i == 7 {} else if i == 8 {} else if i == 9 {} else {}
    }
  }

  /**
   * The demonstration: flight 75 flies the demo route, ends at the gate with
   * eleven recorded entries, and prints its history.
   */
  method Flight75() returns (current: State, entries: nat, names: seq<string>)
    ensures current == AtGate
    ensures entries == 11
    ensures names == DemoHistory
  {
    DemoRouteIsLegal();
    var f := Fly(AtGate, DemoRoute);
    current, entries := f.state, |f.history|;
    names := f.History();
    DemoHistoryNames(names);
  }
}
