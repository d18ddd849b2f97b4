# TeensyStep::Stepper pulse and direction primitives, in Dafny

This project models the per-axis primitives of `TeensyStep::Stepper` (file
`src/Stepper.h`), the lowest layer of a multi-axis stepper-motor stack. One
`Stepper` owns a step pin and a direction pin. The motion scheduler calls
`doStep` to fire a pulse, which also advances the position counter by the
current direction. It calls `clearStepPin` to end the pulse, and `setDir` or
`toggleDir` to change direction. It ranks axes with four static comparators.
The model follows the generic `digitalWrite` variant of the header, which is
where the `polarity` and `reverse` configuration bytes live.

Two modules:

- `StepperPins` (`pins.dfy`) is the value model. It defines the C++ integer
  types as newtypes: `int32`, `uint32` and `uint8`. It defines the
  pulse-relevant state `Axis`: `current`, `dir`, `polarity`, `reverse`, and
  the last values written to the step and direction pins. Each primitive is
  a function from one state to the next (`AfterDoStep`, `AfterClearStepPin`,
  `AfterSetDir`, `AfterToggleDir`, `AfterSetPosition`). `AfterSteps` is n
  pulses in a row. The lemmas about repeated steps, double toggles and
  idempotence are stated over these functions.
- `TeensyStep` (`stepper.dfy`) holds the class `Stepper`. Its fields are
  updated in place. Each method's `modifies` clause names exactly the fields
  it writes, and its `ensures` ties `State()` to the matching `After…`
  function of `old(State())`. The module also holds the static comparators,
  their ordering lemmas, the `Target` record with its constructor defaults,
  and the speed and acceleration constants.

Pin outputs: `digitalWrite(pin, v)` is modelled by storing `v` in the model
field `stepPinLevel` or `dirPinLevel`. `IsHigh(v)` is `v != 0`, the usual
digital-output convention. C++ `!x` on a `uint8_t` is `Not(x)`, which is 0 or
1. Signed overflow is undefined behaviour in C++, so `DoStep` requires
`current + dir` to fit in int32 and `ToggleDir` requires `dir != INT32_MIN`.
`dir` is a public field in the source, so no operation assumes `|dir| == 1`.
Lemmas that need a unit direction require it.

## Model

| member | source | states |
|---|---|---|
| `StepperPins.Not` | src/Stepper.h:130-133 | `!polarity` is 0 or 1 and always has the opposite logical level to `polarity` |
| `StepperPins.DirLevel` | src/Stepper.h:135-139 | the direction-pin value has the same level as `reverse` exactly when the direction is 1; it is `reverse` itself or 0/1 |
| `StepperPins.StepsMoveByNTimesDir` | src/Stepper.h:124-128 | n doStep calls with no direction change, and no int32 overflow at the end, move `current` by exactly `n * dir`; after at least one call the step pin holds `polarity`; `dir`, `polarity`, `reverse` and the dir pin are unchanged |
| `StepperPins.StepsCompose` | src/Stepper.h:124-128 | m pulses followed by n pulses give the same state as m + n pulses |
| `StepperPins.DoStepIsUnitMove` | src/Stepper.h:124-128 | with `dir` equal to 1 or -1, one pulse changes `current` by exactly that unit |
| `StepperPins.PulseThenClear` | src/Stepper.h:124-133 | a pulse drives the step pin to the level of `polarity`; the clear that follows drives it to the opposite level and leaves the position alone |
| `StepperPins.ClearStepPinIdempotent` | src/Stepper.h:130-133 | clearing twice is clearing once, and clearing changes nothing except the step pin |
| `StepperPins.SetDirEffect` | src/Stepper.h:135-139 | setDir(d) records `d`, leaves the dir pin agreeing with it (level of `reverse` iff d == 1), and changes nothing else |
| `StepperPins.UnitDirectionsAreDistinguished` | src/Stepper.h:138 | directions 1 and -1 put the direction pin on opposite levels, whatever `reverse` is |
| `StepperPins.ToggleDirTwice` | src/Stepper.h:142-145 | a toggle negates `dir`; two toggles restore `dir` and rewrite the dir pin for it; when the pin already agreed with `dir`, two toggles restore the whole state |
| `StepperPins.SetDirThenToggleTwice` | src/Stepper.h:135-145 | setDir(d) followed by two toggles gives the state setDir(d) left |
| `StepperPins.ToggleKeepsUnitDir` | src/Stepper.h:142-145 | toggling maps a direction of 1 to -1 and -1 to 1 |
| `StepperPins.SetPositionEffect` | src/Stepper.h:38 | setPosition(pos) sets the counter to `pos` and changes nothing else |
| `TeensyStep.DefaultsWithinLimits` | src/Stepper.h:12-16 | `vPullInOutDefault <= vMaxDefault <= vMaxMax`, `aDefault <= aMax`, and the speed limit is positive |
| `TeensyStep.TargetFromPositionOnly` | src/Stepper.h:46-47 | a Target built from a position alone has speed 0, pull-in and pull-out -1 and is relative |
| `TeensyStep.Stepper.GetPosition` | src/Stepper.h:37 | returns the position counter of the axis state |
| `TeensyStep.Stepper.SetPosition` | src/Stepper.h:38 | only `current` may change; afterwards `GetPosition()` returns `pos` |
| `TeensyStep.Stepper.DoStep` | src/Stepper.h:124-128 | only `current` and the step pin may change; `current` becomes `old(current) + dir` and the step pin `polarity` |
| `TeensyStep.Stepper.ClearStepPin` | src/Stepper.h:130-133 | only the step pin may change; it becomes `!polarity`, the opposite level to `polarity` |
| `TeensyStep.Stepper.SetDir` | src/Stepper.h:135-139 | only `dir` and the dir pin may change; `dir == d`, and the pin is `reverse` when d == 1, else `!reverse` |
| `TeensyStep.Stepper.ToggleDir` | src/Stepper.h:142-145 | only `dir` and the dir pin may change; `dir == -old(dir)`, with the pin written as setDir does |
| `TeensyStep.Stepper.CmpVmax` | src/Stepper.h:78-79 | cmpVmax(x, y) equals cmpVmin(y, x) for all axes |
| `TeensyStep.CmpDeltaIsStrictWeakOrder` | src/Stepper.h:76 | cmpDelta is irreflexive, asymmetric and transitive; two axes are tied exactly when their A are equal; axes with different A are ordered |
| `TeensyStep.CmpAccIsStrictWeakOrder` | src/Stepper.h:77 | cmpAcc is irreflexive, asymmetric and transitive; ties are exactly equal acceleration limits; different limits are ordered |
| `TeensyStep.CmpVminIsStrictWeakOrder` | src/Stepper.h:78 | cmpVmin is irreflexive, asymmetric and transitive; ties are exactly equal `abs(vMax)` |
| `TeensyStep.CmpVminIgnoresSign` | src/Stepper.h:78-79 | cmpVmin compares magnitudes, so a speed limit and its negation are tied |

## Left out

- The configuration setters and the target queue (`setMaxSpeed`, `setPullInSpeed`, `setPullInOutSpeed`, `setAcceleration`, `setStepPinPolarity`, `setInverseRotation`, `setTargetAbs`/`Rel`, `addTargetAbs`/`Rel`, `nextTarget`, `repeatTargets`, `removeTargets`, `loadTarget`): `src/Stepper.h` only declares them. Their bodies are in `src/Stepper.cpp`, which is not part of this model. For the same reason the fields that only those operations touch (`targets`, `t_index`, `target`, `currentSpeed`, `B`, `vPullIn`, `vPullOut`) are not modelled.
- The constructor `Stepper(stepPin, dirPin, name)`: its body is in `src/Stepper.cpp`, which is not part of this model. The Dafny constructor instead takes the initial pulse state and the envelope fields (`A`, `vMax`, `a`) as parameters, so that any reachable state can be built.
- The register variant for Teensy 3.x MCUs (`src/Stepper.h:82-86, 106-122`). It writes to memory-mapped registers selected by the preprocessor. Its `setDir` picks the CW or CCW register by `dir == 1` and does not use a `reverse` flag.
- `volatile` and the concurrency between the interrupt-driven scheduler and application code: the model is sequential.
- The `friend` declarations and the controller classes they name: those classes are not part of this model.
- The `name` string is diagnostic only and is omitted. The pin numbers are kept only as opaque integers.
- `TeensyStep.Stepper.CmpVmin`: requires that neither `vMax` is INT32_MIN, because `std::abs(INT32_MIN)` is undefined behaviour. `CmpVmax` has the same requirement.
- `digitalWrite` is represented only by the value it receives. The code does not say which physical level a value other than 0 or 1 produces; `IsHigh` follows the common convention that any non-zero value is HIGH.
- Repeated pulses are stated as lemmas about `StepperPins.AfterSteps` and not as a loop, because the source has no loop. `Stepper.DoStep`'s contract ties each call to `AfterDoStep`, and `AfterSteps` is n repetitions of it.
