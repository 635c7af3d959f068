/**
 * The car challenges of challenges.js: `Car` and its subtype `EV` written as
 * constructor functions (lines 3-45), and `CarEs` and its subclass `EVCL`
 * written as classes (lines 55-111). Dafny has no subclassing here, so each
 * subtype carries its own copy of the members it inherits.
 */
module Cars {
  import opened Wrappers

  /** What `accelerate` adds to the speed of a `Car` or `CarEs`. */
  const CarSpeedUp := 10
  /** What `accelerate` adds to the speed of an `EV` or `EVCL`. */
  const EvSpeedUp := 20
  /** What `brake` takes off the speed of any car. */
  const SlowDown := 5

  /** `Car` (challenges.js:3-15). */
  class Car {
    var make: string
    var speed: int

    constructor (make: string, speed: int)
      ensures this.make == make && this.speed == speed
    {
      this.make := make;
      this.speed := speed;
    }

    method Accelerate()
      modifies this
      ensures speed == old(speed) + CarSpeedUp && make == old(make)
    {
      speed := speed + CarSpeedUp;
    }

    method Brake()
      modifies this
      ensures speed == old(speed) - SlowDown && make == old(make)
    {
      speed := speed - SlowDown;
    }
  }

  /** `EV` (challenges.js:28-45): a `Car` with a charge; `brake` is inherited from `Car`. */
  class EV {
    var make: string
    var speed: int
    var charge: int

    constructor (make: string, speed: int, charge: int)
      ensures this.make == make && this.speed == speed && this.charge == charge
    {
      this.make := make;
      this.speed := speed;
      this.charge := charge;
    }

    /** `chargeBattery`: the charge becomes the given value, whatever it was. */
    method ChargeBattery(chargeTo: int)
      modifies this
      ensures charge == chargeTo
      ensures speed == old(speed) && make == old(make)
    {
      charge := chargeTo;
    }

    /** The overriding `accelerate`: faster by 20, one unit of charge used. */
    method Accelerate()
      modifies this
      ensures speed == old(speed) + EvSpeedUp && charge == old(charge) - 1
      ensures make == old(make)
    {
      speed := speed + EvSpeedUp;
      charge := charge - 1;
    }

    /** `Car.prototype.brake`, reached through the prototype chain. */
    method Brake()
      modifies this
      ensures speed == old(speed) - SlowDown
      ensures charge == old(charge) && make == old(make)
    {
      speed := speed - SlowDown;
    }
  }

  /** `CarEs` (challenges.js:55-69): only `brake` returns the receiver. */
  class CarEs {
    var make: string
    var speed: int

    constructor (make: string, speed: int)
      ensures this.make == make && this.speed == speed
    {
      this.make := make;
      this.speed := speed;
    }

    method Accelerate()
      modifies this
      ensures speed == old(speed) + CarSpeedUp && make == old(make)
    {
      speed := speed + CarSpeedUp;
    }

    method Brake() returns (self: CarEs)
      modifies this
      ensures self == this
      ensures speed == old(speed) - SlowDown && make == old(make)
    {
      speed := speed - SlowDown;
      self := this;
    }
  }

  /** A call on an `EVCL`. */
  datatype Drive = Accelerate | Brake | ChargeBattery(chargeTo: int)

  /**
   * The state of an `EVCL`: its speed, its private `#charge`, and its public
   * `charge`, which no constructor sets.
   */
  datatype EvclState = EvclState(speed: int, privateCharge: int, charge: Option<int>)

  /** What one call does to an `EVCL`. */
  function EvclStep(s: EvclState, d: Drive): EvclState
  {
    match d
    case Accelerate => s.(speed := s.speed + EvSpeedUp, privateCharge := s.privateCharge - 1)
    case Brake => s.(speed := s.speed - SlowDown)
    case ChargeBattery(c) => s.(charge := Some(c))
  }

  /** What a run of calls, in order, does to an `EVCL`. */
  function EvclRun(s: EvclState, ds: seq<Drive>): EvclState
  {
    if ds == [] then s else EvclStep(EvclRun(s, ds[..|ds| - 1]), ds[|ds| - 1])
  }

  /** The argument of the last `chargeBattery` in `ds`, or `initial` if there is none. */
  function LastChargeTo(ds: seq<Drive>, initial: Option<int>): Option<int>
  {
    if ds == [] then initial
    else if ds[|ds| - 1].ChargeBattery? then Some(ds[|ds| - 1].chargeTo)
    else LastChargeTo(ds[..|ds| - 1], initial)
  }

  /** The speed moves by 20 per acceleration and by -5 per brake, in any order. */
  lemma {:induction false} EvclRunSpeed(s: EvclState, ds: seq<Drive>)
    ensures EvclRun(s, ds).speed
         == s.speed + EvSpeedUp * multiset(ds)[Drive.Accelerate] - SlowDown * multiset(ds)[Drive.Brake]
  {
    if ds != [] {
      var init := ds[..|ds| - 1];
      EvclRunSpeed(s, init);
      assert ds == init + [ds[|ds| - 1]];
    }
  }

  /**
   * `chargeBattery` never refills the private `#charge`: after any run it is
   * the initial charge less one per acceleration.
   */
  lemma {:induction false} EvclChargingNeverRefills(s: EvclState, ds: seq<Drive>)
    ensures EvclRun(s, ds).privateCharge == s.privateCharge - multiset(ds)[Drive.Accelerate]
  {
    if ds != [] {
      var init := ds[..|ds| - 1];
      EvclChargingNeverRefills(s, init);
      assert ds == init + [ds[|ds| - 1]];
    }
  }

  /** The public `charge` holds the last value given to `chargeBattery`, if any. */
  lemma {:induction false} EvclPublicCharge(s: EvclState, ds: seq<Drive>)
    ensures EvclRun(s, ds).charge == LastChargeTo(ds, s.charge)
  {
    if ds != [] {
      EvclPublicCharge(s, ds[..|ds| - 1]);
    }
  }

  /** `EVCL` (challenges.js:90-111): every method returns the receiver. */
  class EVCL {
    var make: string
    var speed: int
    /** `#charge`: set by the constructor, used up by `accelerate`. */
    var privateCharge: int
    /** The public `charge` property, which only `chargeBattery` writes. */
    var charge: Option<int>

    function State(): EvclState
      reads this
    {
      EvclState(speed, privateCharge, charge)
    }

    constructor (make: string, speed: int, charge: int)
      ensures this.make == make
      ensures State() == EvclState(speed, charge, None)
    {
      this.make := make;
      this.speed := speed;
      this.privateCharge := charge;
      this.charge := None;
    }

    /** The overriding `accelerate`: faster by 20, one unit of `#charge` used. */
    method Accelerate() returns (self: EVCL)
      modifies this
      ensures self == this && make == old(make)
      ensures speed == old(speed) + EvSpeedUp && privateCharge == old(privateCharge) - 1
      ensures charge == old(charge)
      ensures State() == EvclStep(old(State()), Drive.Accelerate)
    {
      speed := speed + EvSpeedUp;
      privateCharge := privateCharge - 1;
      self := this;
    }

    /** `CarEs.prototype.brake`, inherited. */
    method Brake() returns (self: EVCL)
      modifies this
      ensures self == this && make == old(make)
      ensures speed == old(speed) - SlowDown
      ensures privateCharge == old(privateCharge) && charge == old(charge)
      ensures State() == EvclStep(old(State()), Drive.Brake)
    {
      speed := speed - SlowDown;
      self := this;
    }

    /** `chargeBattery`: writes the public `charge`; `#charge` is left as it was. */
    method ChargeBattery(chargeTo: int) returns (self: EVCL)
      modifies this
      ensures self == this && make == old(make)
      ensures charge == Some(chargeTo)
      ensures speed == old(speed) && privateCharge == old(privateCharge)
      ensures State() == EvclStep(old(State()), Drive.ChargeBattery(chargeTo))
    {
      charge := Some(chargeTo);
      self := this;
    }
  }

  /** The runs on `bmw` and `mercedes` at challenges.js:17-25. */
  method CarRun() returns (bmwSpeed: int, mercedesSpeed: int)
    ensures bmwSpeed == 125 && mercedesSpeed == 100
  {
    var bmw := new Car("BMW", 120);
    bmw.Accelerate();
    bmw.Brake();
    var mercedes := new Car("Mercedes", 95);
    mercedes.Accelerate();
    mercedes.Brake();
    bmwSpeed, mercedesSpeed := bmw.speed, mercedes.speed;
  }

  /** The run on `tesla` at challenges.js:47-50, with the state after each call. */
  method TeslaRun() returns (charged: int, accelerated: (int, int), braked: int)
    ensures charged == 90
    ensures accelerated == (140, 89)
    ensures braked == 135
  {
    var tesla := new EV("Tesla", 120, 23);
    tesla.ChargeBattery(90);
    charged := tesla.charge;
    tesla.Accelerate();
    accelerated := (tesla.speed, tesla.charge);
    tesla.Brake();
    braked := tesla.speed;
  }

  /** The run on `ford` at challenges.js:82-85, leaving out the `speedUS` conversions. */
  method FordRun() returns (fordSpeed: int)
    ensures fordSpeed == 125
  {
    var ford := new CarEs("Ford", 120);
    ford.Accelerate();
    var _ := ford.Brake();
    fordSpeed := ford.speed;
  }

  /** The chain on `rivian` at challenges.js:113-114, each link called on `rivian` itself. */
  method RivianRun() returns (final: EvclState)
    ensures final == EvclState(155, 21, Some(80))
    ensures final == EvclRun(EvclState(120, 23, None), [Drive.Accelerate, Drive.Brake, Drive.ChargeBattery(80), Drive.Accelerate])
  {
    var rivian := new EVCL("Rivian", 120, 23);
    var link := rivian.Accelerate();
    link := link.Brake();
    link := link.ChargeBattery(80);
    link := link.Accelerate();
    final := rivian.State();
    var start := EvclState(120, 23, None);
    var chain := [Drive.Accelerate, Drive.Brake, Drive.ChargeBattery(80), Drive.Accelerate];
    assert chain[..3] == [Drive.Accelerate, Drive.Brake, Drive.ChargeBattery(80)];
    assert chain[..3][..2] == [Drive.Accelerate, Drive.Brake];
    assert chain[..3][..2][..1] == [Drive.Accelerate];
    assert EvclRun(start, [Drive.Accelerate]) == EvclState(140, 22, None);
    assert EvclRun(start, [Drive.Accelerate, Drive.Brake]) == EvclState(135, 22, None);
    assert EvclRun(start, chain[..3]) == EvclState(135, 22, Some(80));
  }
}
