/**
 * The value-level model of one stepper axis's pulse and direction state:
 * the position counter, the direction, the two configuration bytes that
 * decide pin levels, and the last value written to each of the two pins.
 * Every operation of the driver's generic (digitalWrite) variant is a
 * total or int32-guarded function from one such state to the next.
 */
module StepperPins {

  /** C++ `int32_t`. */
  newtype int32 = x: int | -0x8000_0000 <= x < 0x8000_0000

  /** C++ `uint32_t`. */
  newtype uint32 = x: int | 0 <= x < 0x1_0000_0000

  /** C++ `uint8_t`; also the value handed to `digitalWrite`. */
  newtype uint8 = x: int | 0 <= x < 0x100

  const INT32_MIN: int := -0x8000_0000
  const INT32_MAX: int := 0x7fff_ffff

  predicate IsInt32(x: int) {
    INT32_MIN <= x <= INT32_MAX
  }

  /** The digital-output convention: a written value of 0 drives the pin LOW, any other value HIGH. */
  predicate IsHigh(v: uint8) {
    v != 0
  }

  /** C++ logical negation `!v` of a `uint8_t`, which yields 0 or 1. */
  function Not(v: uint8): (r: uint8)
    ensures r <= 1
    ensures IsHigh(r) != IsHigh(v)
  {
    if v == 0 then 1 else 0
  }

  /**
   * The value `setDir` writes to the direction pin: `reverse` when the new
   * direction is 1, `!reverse` for every other direction.
   */
  function DirLevel(d: int32, reverse: uint8): (v: uint8)
    ensures (IsHigh(v) == IsHigh(reverse)) <==> d == 1
    ensures v == reverse || v <= 1
  {
    if d == 1 then reverse else Not(reverse)
  }

  /**
   * The pulse-relevant state of an axis. `stepPin` and `dirPin` are the
   * last values written to the two outputs.
   */
  datatype Axis = Axis(
    current: int32,
    dir: int32,
    polarity: uint8,
    reverse: uint8,
    stepPin: uint8,
    dirPin: uint8)

  /** `current += dir` stays within int32 (signed overflow is undefined behaviour). */
  predicate CanDoStep(s: Axis) {
    IsInt32(s.current as int + s.dir as int)
  }

  /** `-dir` stays within int32. */
  predicate CanToggleDir(s: Axis) {
    s.dir as int != INT32_MIN
  }

  /** The direction pin shows what `setDir` would have written for the recorded direction. */
  predicate DirPinAgrees(s: Axis) {
    s.dirPin == DirLevel(s.dir, s.reverse)
  }

  /** doStep: write `polarity` to the step pin, then advance `current` by `dir`. */
  function AfterDoStep(s: Axis): Axis
    requires CanDoStep(s)
  {
    s.(stepPin := s.polarity, current := (s.current as int + s.dir as int) as int32)
  }

  /** clearStepPin: write `!polarity` to the step pin. */
  function AfterClearStepPin(s: Axis): Axis {
    s.(stepPin := Not(s.polarity))
  }

  /** setDir(d): record `d` and write the direction level for it. */
  function AfterSetDir(s: Axis, d: int32): Axis {
    s.(dir := d, dirPin := DirLevel(d, s.reverse))
  }

  /** toggleDir: setDir(-dir). */
  function AfterToggleDir(s: Axis): Axis
    requires CanToggleDir(s)
  {
    AfterSetDir(s, (-(s.dir as int)) as int32)
  }

  /** setPosition(pos): overwrite the position counter. */
  function AfterSetPosition(s: Axis, pos: int32): Axis {
    s.(current := pos)
  }

  /**
   * If the start and the end of n equal moves lie in int32, so does the end
   * of the first move, and the remaining n - 1 moves end at the same place.
   */
  lemma StepBetween(c: int, d: int, n: nat)
    requires n >= 1
    ensures (c + d) + (n - 1) * d == c + n * d
    ensures IsInt32(c) && IsInt32(c + n * d) ==> IsInt32(c + d)
  {
  }

  /** n consecutive doStep calls with no direction change in between. */
  function AfterSteps(s: Axis, n: nat): Axis
    requires IsInt32(s.current as int + n * (s.dir as int))
    decreases n
  {
    if n == 0 then s
    else
      StepBetween(s.current as int, s.dir as int, n);
      AfterSteps(AfterDoStep(s), n - 1)
  }

  /**
   * n steps move the counter by exactly n * dir; after at least one step the
   * step pin holds the active level; direction, configuration and the
   * direction pin are untouched.
   */
  lemma {:induction false} StepsMoveByNTimesDir(s: Axis, n: nat)
    requires IsInt32(s.current as int + n * (s.dir as int))
    ensures AfterSteps(s, n).current as int == s.current as int + n * (s.dir as int)
    ensures AfterSteps(s, n).stepPin == if n == 0 then s.stepPin else s.polarity
    ensures AfterSteps(s, n).dir == s.dir
    ensures AfterSteps(s, n).polarity == s.polarity
    ensures AfterSteps(s, n).reverse == s.reverse
    ensures AfterSteps(s, n).dirPin == s.dirPin
    decreases n
  {
    if n > 0 {
      StepBetween(s.current as int, s.dir as int, n);
      StepsMoveByNTimesDir(AfterDoStep(s), n - 1);
    }
  }

  /** m steps followed by n steps are m + n steps. */
  lemma {:induction false} StepsCompose(s: Axis, m: nat, n: nat)
    requires IsInt32(s.current as int + m * (s.dir as int))
    requires IsInt32(s.current as int + (m + n) * (s.dir as int))
    ensures AfterSteps(s, m).current as int == s.current as int + m * (s.dir as int)
    ensures AfterSteps(s, m).dir == s.dir
    ensures IsInt32(AfterSteps(s, m).current as int + n * (AfterSteps(s, m).dir as int))
    ensures AfterSteps(AfterSteps(s, m), n) == AfterSteps(s, m + n)
    decreases m
  {
    StepsMoveByNTimesDir(s, m);
    assert s.current as int + m * (s.dir as int) + n * (s.dir as int)
        == s.current as int + (m + n) * (s.dir as int);
    if m > 0 {
      var t := AfterDoStep(s);
      StepBetween(s.current as int, s.dir as int, m);
      StepBetween(s.current as int, s.dir as int, m + n);
      StepsCompose(t, m - 1, n);
    }
  }

  /** With a unit direction each pulse moves the counter by exactly one step, forwards for 1. */
  lemma DoStepIsUnitMove(s: Axis)
    requires s.dir == 1 || s.dir == -1
    requires CanDoStep(s)
    ensures AfterDoStep(s).current as int - s.current as int == s.dir as int
    ensures AfterDoStep(s).current as int - s.current as int in {-1, 1}
  {
  }

  /**
   * A pulse drives the step pin to the active level of `polarity`, and the
   * following clear drives it to the opposite level without moving the axis.
   */
  lemma PulseThenClear(s: Axis)
    requires CanDoStep(s)
    ensures IsHigh(AfterDoStep(s).stepPin) == IsHigh(s.polarity)
    ensures IsHigh(AfterClearStepPin(AfterDoStep(s)).stepPin) == !IsHigh(s.polarity)
    ensures AfterClearStepPin(AfterDoStep(s)).current == AfterDoStep(s).current
  {
  }

  /** clearStepPin is idempotent and leaves every other part of the state alone. */
  lemma ClearStepPinIdempotent(s: Axis)
    ensures AfterClearStepPin(AfterClearStepPin(s)) == AfterClearStepPin(s)
    ensures AfterClearStepPin(s).(stepPin := s.stepPin) == s
  {
  }

  /** setDir records the direction, leaves the pin consistent with it, and nothing else changes. */
  lemma SetDirEffect(s: Axis, d: int32)
    ensures AfterSetDir(s, d).dir == d
    ensures DirPinAgrees(AfterSetDir(s, d))
    ensures (IsHigh(AfterSetDir(s, d).dirPin) == IsHigh(s.reverse)) <==> d == 1
    ensures AfterSetDir(s, d).(dir := s.dir, dirPin := s.dirPin) == s
  {
  }

  /** The two unit directions put the direction pin on opposite levels. */
  lemma UnitDirectionsAreDistinguished(r: uint8)
    ensures IsHigh(DirLevel(1, r)) != IsHigh(DirLevel(-1, r))
  {
  }

  /**
   * Two toggles restore the direction and rewrite the direction pin for it;
   * when the pin already agreed with the direction, the whole state is restored.
   */
  lemma ToggleDirTwice(s: Axis)
    requires CanToggleDir(s)
    ensures AfterToggleDir(s).dir as int == -(s.dir as int)
    ensures CanToggleDir(AfterToggleDir(s))
    ensures AfterToggleDir(AfterToggleDir(s)) == AfterSetDir(s, s.dir)
    ensures DirPinAgrees(s) ==> AfterToggleDir(AfterToggleDir(s)) == s
  {
  }

  /** setDir followed by two toggles leaves the direction that setDir recorded. */
  lemma SetDirThenToggleTwice(s: Axis, d: int32)
    requires d as int != INT32_MIN
    ensures CanToggleDir(AfterSetDir(s, d))
    ensures CanToggleDir(AfterToggleDir(AfterSetDir(s, d)))
    ensures AfterToggleDir(AfterToggleDir(AfterSetDir(s, d))) == AfterSetDir(s, d)
  {
    ToggleDirTwice(AfterSetDir(s, d));
  }

  /** A unit direction stays a unit direction under toggling. */
  lemma ToggleKeepsUnitDir(s: Axis)
    requires s.dir == 1 || s.dir == -1
    ensures AfterToggleDir(s).dir == -s.dir
  {
  }

  /** setPosition changes only the counter. */
  lemma SetPositionEffect(s: Axis, pos: int32)
    ensures AfterSetPosition(s, pos).current == pos
    ensures AfterSetPosition(s, pos).(current := s.current) == s
  {
  }
}
