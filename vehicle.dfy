/**
 * The abstract vehicle with a speed: a new vehicle stands still,
 * `accelerate` adds to the speed without any bound, and `stop` resets it.
 * `Car` and `Airplane` are the two concrete classes; the abstract class
 * itself cannot be instantiated, so a vehicle is always one of the two.
 */
module Vehicles {

  /** The concrete subclasses of `Vehicle`. */
  datatype VehicleKind = Car | Airplane

  /** A driving instruction: `accelerate(amount)` or `stop()`. */
  datatype Command = Accelerate(amount: int) | Stop

  /** The speed after carrying out `cmds` in order from `speed`. */
  function SpeedAfter(speed: int, cmds: seq<Command>): int
    decreases |cmds|
  {
    if cmds == [] then speed
    else
      var s := match cmds[0] case Accelerate(a) => speed + a case Stop => 0;
      SpeedAfter(s, cmds[1..])
  }

  /** The sum of the amounts of the accelerations in `cmds`. */
  function TotalAcceleration(cmds: seq<Command>): int
    decreases |cmds|
  {
    if cmds == [] then 0
    else (if cmds[0].Accelerate? then cmds[0].amount else 0) + TotalAcceleration(cmds[1..])
  }

  /** Without a stop, the speed is the start speed plus every acceleration: there is no clamping. */
  lemma {:induction false} NoStopAddsUp(speed: int, cmds: seq<Command>)
    requires forall k :: 0 <= k < |cmds| ==> cmds[k].Accelerate?
    ensures SpeedAfter(speed, cmds) == speed + TotalAcceleration(cmds)
    decreases |cmds|
  {
    if cmds != [] {
      NoStopAddsUp(speed + cmds[0].amount, cmds[1..]);
    }
  }

  /** A stop forgets everything before it: the speed depends only on what follows the stop. */
  lemma {:induction false} StopForgetsHistory(speed: int, before: seq<Command>, after: seq<Command>)
    ensures SpeedAfter(speed, before + [Stop] + after) == SpeedAfter(0, after)
    decreases |before|
  {
    if before == [] {
      assert before + [Stop] + after == [Stop] + after;
      assert ([Stop] + after)[1..] == after;
    } else {
      var s := match before[0] case Accelerate(a) => speed + a case Stop => 0;
      assert (before + [Stop] + after)[1..] == before[1..] + [Stop] + after;
      StopForgetsHistory(s, before[1..], after);
    }
  }

  /** A vehicle: its concrete class and its current speed. */
  class Vehicle {
    const kind: VehicleKind
    var speed: int

    /** `__init__`: a new vehicle has speed 0. */
    constructor (k: VehicleKind)
      ensures kind == k && speed == 0
    {
      kind := k;
      speed := 0;
    }

    /** `accelerate`: adds `amount`, which may be negative, with no bound. */
    method Accelerate(amount: int)
      modifies this
      ensures speed == old(speed) + amount
    {
      speed := speed + amount;
    }

    /** `stop`: the speed is 0, whatever it was. */
    method Stop()
      modifies this
      ensures speed == 0
    {
      speed := 0;
    }

    /** Carries out a list of commands in order. */
    method Drive(cmds: seq<Command>)
      modifies this
      ensures speed == SpeedAfter(old(speed), cmds)
    {
      for i := 0 to |cmds|
        invariant SpeedAfter(speed, cmds[i..]) == SpeedAfter(old(speed), cmds)
      {
        assert cmds[i..][1..] == cmds[i + 1..];
        match cmds[i]
        case Accelerate(a) => Accelerate(a);
        case Stop => Stop();
      }
    }
  }

  /** The single-vehicle demonstration: a car at 60 and an airplane at 450 both end stopped. */
  method Demo() returns (carSpeed: int, airplaneSpeed: int, carTop: int, airplaneTop: int)
    ensures carTop == 60 && airplaneTop == 450
    ensures carSpeed == 0 && airplaneSpeed == 0
  {
    var car := new Vehicle(Car);
    car.Accelerate(60);
    carTop := car.speed;
    car.Stop();
    var airplane := new Vehicle(Airplane);
    airplane.Accelerate(450);
    airplaneTop := airplane.speed;
    airplane.Stop();
    carSpeed, airplaneSpeed := car.speed, airplane.speed;
  }

  /**
   * The fleet: a car, an airplane and a car, each accelerated by 50 in turn.
   * They are three distinct objects, so each ends at exactly 50.
   */
  method Fleet() returns (fleet: seq<Vehicle>)
    ensures |fleet| == 3
    ensures fleet[0].kind == Car && fleet[1].kind == Airplane && fleet[2].kind == Car
    ensures forall i, j :: 0 <= i < j < |fleet| ==> fleet[i] != fleet[j]
    ensures forall i :: 0 <= i < |fleet| ==> fresh(fleet[i]) && fleet[i].speed == 50
  {
    var first := new Vehicle(Car);
    var second := new Vehicle(Airplane);
    var third := new Vehicle(Car);
    fleet := [first, second, third];
    for i := 0 to |fleet|
      invariant forall j :: 0 <= j < i ==> fleet[j].speed == 50
      invariant forall j :: i <= j < |fleet| ==> fleet[j].speed == 0
    {
      fleet[i].Accelerate(50);
    }
  }
}
