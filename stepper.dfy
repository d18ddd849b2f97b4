/**
 * TeensyStep::Stepper, generic variant: one stepper axis that owns a step
 * pin and a direction pin. The pulse and direction primitives update the
 * position counter, the direction and the two pin outputs in place; the
 * static comparators rank axes for a multi-axis scheduler.
 */
module TeensyStep {
  import opened StepperPins

  /** Largest speed possible (steps/s). */
  const vMaxMax: int32 := 300000
  /** Largest acceleration (steps/s^2). */
  const aMax: uint32 := 500000
  /** Default maximum speed (steps/s). */
  const vMaxDefault: uint32 := 800
  /** Default pull-in and pull-out speed (steps/s). */
  const vPullInOutDefault: uint32 := 100
  /** Default acceleration (steps/s^2). */
  const aDefault: uint32 := 2500

  /** The defaults lie inside the hardware limits. */
  lemma DefaultsWithinLimits()
    ensures vPullInOutDefault <= vMaxDefault
    ensures vMaxDefault as int <= vMaxMax as int
    ensures aDefault <= aMax
    ensures 0 < vMaxMax
  {
  }

  /**
   * One waypoint, immutable once built. A negative pull-in or pull-out
   * speed means "none given"; a zero speed means "use the configured one".
   */
  datatype Target = Target(
    target: int32,
    speed: int32 := 0,
    vPullIn: int32 := -1,
    vPullOut: int32 := -1,
    abs: bool := false)

  /** A target built from a position alone carries the constructor defaults. */
  lemma TargetFromPositionOnly(pos: int32)
    ensures Target(pos).target == pos
    ensures Target(pos).speed == 0
    ensures Target(pos).vPullIn == -1 && Target(pos).vPullOut == -1
    ensures !Target(pos).abs
  {
  }

  /** |v|; over mathematical integers, so the argument must not be INT32_MIN in the source. */
  function Abs(v: int): nat {
    if v < 0 then -v else v
  }

  class Stepper {
    /** Platform pin numbers, opaque identifiers here. */
    const stepPin: int
    const dirPin: int

    /** Position counter (steps). */
    var current: int32
    /** Current direction; a public field, so any int32 value can occur. */
    var dir: int32
    /** Bresenham parameter A: this axis's travel distance, read by cmpDelta. */
    var A: int32
    /** Maximum speed, read through its magnitude by cmpVmin and cmpVmax. */
    var vMax: int32
    /** Acceleration limit, read by cmpAcc. */
    var a: uint32
    /** Value written to the step pin by doStep; clearStepPin writes its negation. */
    var polarity: uint8
    /** Value written to the direction pin for dir == 1; other directions get its negation. */
    var reverse: uint8
    /** Last value written to the step pin. */
    var stepPinLevel: uint8
    /** Last value written to the direction pin. */
    var dirPinLevel: uint8

    /** The pulse-relevant part of this axis as a value. */
    function State(): Axis
      reads this
    {
      Axis(current, dir, polarity, reverse, stepPinLevel, dirPinLevel)
    }

    /** Builds an axis on the given pins, in the given pulse state and with the given envelope. */
    constructor (stepPin: int, dirPin: int, init: Axis, A: int32, vMax: int32, a: uint32)
      ensures this.stepPin == stepPin && this.dirPin == dirPin
      ensures State() == init
      ensures this.A == A && this.vMax == vMax && this.a == a
    {
      this.stepPin := stepPin;
      this.dirPin := dirPin;
      current := init.current;
      dir := init.dir;
      polarity := init.polarity;
      reverse := init.reverse;
      stepPinLevel := init.stepPin;
      dirPinLevel := init.dirPin;
      this.A := A;
      this.vMax := vMax;
      this.a := a;
    }

    /** getPosition: the position counter. */
    function GetPosition(): (pos: int32)
      reads this
      ensures pos == State().current
    {
      current
    }

    /** setPosition: overwrite the position counter and nothing else. */
    method SetPosition(pos: int32)
      modifies this`current
      ensures current == pos
      ensures GetPosition() == pos
      ensures State() == AfterSetPosition(old(State()), pos)
    {
      current := pos;
    }

    /** doStep: drive the step pin to `polarity`, then advance the counter by `dir`. */
    method DoStep()
      requires CanDoStep(State())
      modifies this`current, this`stepPinLevel
      ensures current as int == old(current) as int + dir as int
      ensures stepPinLevel == polarity
      ensures State() == AfterDoStep(old(State()))
    {
      stepPinLevel := polarity;
      current := (current as int + dir as int) as int32;
    }

    /** clearStepPin: drive the step pin to `!polarity`; the position is untouched. */
    method ClearStepPin()
      modifies this`stepPinLevel
      ensures stepPinLevel == Not(polarity)
      ensures IsHigh(stepPinLevel) != IsHigh(polarity)
      ensures State() == AfterClearStepPin(old(State()))
    {
      stepPinLevel := Not(polarity);
    }

    /** setDir(d): record `d` and write `reverse` for d == 1, `!reverse` otherwise. */
    method SetDir(d: int32)
      modifies this`dir, this`dirPinLevel
      ensures dir == d
      ensures dirPinLevel == (if d == 1 then reverse else Not(reverse))
      ensures State() == AfterSetDir(old(State()), d)
    {
      dir := d;
      dirPinLevel := DirLevel(dir, reverse);
    }

    /** toggleDir: setDir(-dir). */
    method ToggleDir()
      requires CanToggleDir(State())
      modifies this`dir, this`dirPinLevel
      ensures dir as int == -(old(dir) as int)
      ensures State() == AfterToggleDir(old(State()))
    {
      SetDir((-(dir as int)) as int32);
    }

    /** cmpDelta: x ranks before y when it has the longer travel A. */
    static function CmpDelta(x: Stepper, y: Stepper): bool
      reads x, y
    {
      x.A > y.A
    }

    /** cmpAcc: x ranks before y when it has the lower acceleration limit. */
    static function CmpAcc(x: Stepper, y: Stepper): bool
      reads x, y
    {
      x.a < y.a
    }

    /** cmpVmin: x ranks before y when its speed limit has the smaller magnitude. */
    static function CmpVmin(x: Stepper, y: Stepper): bool
      reads x, y
      requires x.vMax as int != INT32_MIN && y.vMax as int != INT32_MIN
    {
      Abs(x.vMax as int) < Abs(y.vMax as int)
    }

    /** cmpVmax: x ranks before y when its speed limit has the larger magnitude; cmpVmin reversed. */
    static function CmpVmax(x: Stepper, y: Stepper): (r: bool)
      reads x, y
      requires x.vMax as int != INT32_MIN && y.vMax as int != INT32_MIN
      ensures r == CmpVmin(y, x)
    {
      Abs(x.vMax as int) > Abs(y.vMax as int)
    }
  }

  /**
   * cmpDelta is a strict weak order: irreflexive, asymmetric, transitive,
   * with transitive incomparability (ties are exactly equal A); and it
   * orders any two axes whose A differ.
   */
  lemma CmpDeltaIsStrictWeakOrder(x: Stepper, y: Stepper, z: Stepper)
    ensures !Stepper.CmpDelta(x, x)
    ensures Stepper.CmpDelta(x, y) ==> !Stepper.CmpDelta(y, x)
    ensures Stepper.CmpDelta(x, y) && Stepper.CmpDelta(y, z) ==> Stepper.CmpDelta(x, z)
    ensures !Stepper.CmpDelta(x, y) && !Stepper.CmpDelta(y, x) <==> x.A == y.A
    ensures x.A != y.A ==> Stepper.CmpDelta(x, y) || Stepper.CmpDelta(y, x)
  {
  }

  /** cmpAcc is a strict weak order whose ties are exactly equal acceleration limits. */
  lemma CmpAccIsStrictWeakOrder(x: Stepper, y: Stepper, z: Stepper)
    ensures !Stepper.CmpAcc(x, x)
    ensures Stepper.CmpAcc(x, y) ==> !Stepper.CmpAcc(y, x)
    ensures Stepper.CmpAcc(x, y) && Stepper.CmpAcc(y, z) ==> Stepper.CmpAcc(x, z)
    ensures !Stepper.CmpAcc(x, y) && !Stepper.CmpAcc(y, x) <==> x.a == y.a
    ensures x.a != y.a ==> Stepper.CmpAcc(x, y) || Stepper.CmpAcc(y, x)
  {
  }

  /** cmpVmin is a strict weak order whose ties are exactly equal speed magnitudes. */
  lemma CmpVminIsStrictWeakOrder(x: Stepper, y: Stepper, z: Stepper)
    requires x.vMax as int != INT32_MIN && y.vMax as int != INT32_MIN && z.vMax as int != INT32_MIN
    ensures !Stepper.CmpVmin(x, x)
    ensures Stepper.CmpVmin(x, y) ==> !Stepper.CmpVmin(y, x)
    ensures Stepper.CmpVmin(x, y) && Stepper.CmpVmin(y, z) ==> Stepper.CmpVmin(x, z)
    ensures !Stepper.CmpVmin(x, y) && !Stepper.CmpVmin(y, x) <==> Abs(x.vMax as int) == Abs(y.vMax as int)
  {
  }

  /** A speed limit and its negation rank the same: the comparators ignore the sign of vMax. */
  lemma CmpVminIgnoresSign(x: Stepper, y: Stepper)
    requires x.vMax as int != INT32_MIN && y.vMax as int != INT32_MIN
    ensures Stepper.CmpVmin(x, y) <==> Abs(x.vMax as int) < Abs(y.vMax as int)
    ensures x.vMax as int == -(y.vMax as int) ==> !Stepper.CmpVmin(x, y) && !Stepper.CmpVmin(y, x)
  {
  }
}
