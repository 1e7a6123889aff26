# TimedPID in Dafny

A model of TimedPID, a proportional–integral–derivative controller for the
Arduino. One object holds three gains, the previous error, the running
integral of the error, an optional command range, and the clock value of the
last self-timed call. Each control cycle the caller asks it for a command in
one of three ways:

- `getCmd`, with an implicit step of 1: rectangle integral, plain difference;
- `getCmdStep`, with a step the caller gives: trapezoid integral, backward
  difference;
- `getCmdAutoStep`, which measures the step on the microsecond clock and then
  does what `getCmdStep` does.

The command is clamped to the range once `setCmdRange` has been called.

Files:

- `pid_law.dfy`, module `PidLaw`: the arithmetic as pure functions. It holds
  Arduino's `constrain`, the 32-bit clock subtraction, one step of each
  integration rule, the command formula, and what repeated steps add up to.
- `timed_pid.dfy`, module `Controller`: `class TimedPID` with the fields of
  the C++ class. Its methods update those fields in place and are specified by
  the functions of `PidLaw`. Every method's `modifies` clause lists exactly
  the fields the C++ method assigns. So the frames show that only `SetGains`
  changes the gains, and only `SetCmdRange` changes the range and the
  clamping flag. They also show that only the constructor, `Reset` and the
  three command methods change the error terms.
- `scenarios.dfy`, module `Scenarios`: clients that run worked examples
  through the class methods: integral and derivative response of `getCmd`,
  trapezoid accumulation of `getCmdStep`, the default gains, the self-timed
  step, the permanence of the range and a repeated reset. Each result
  follows from the method contracts alone.

Modelling choices:

- `float` is `real`.
- Arduino's `unsigned long` is the newtype `u32`. The elapsed-time
  subtraction wraps modulo 2^32, as in the source.
- `micros()` is read by the caller and passed in as a `now: u32` parameter.
  This applies to the constructor, `Reset` and `GetCmdAutoStep`.
- The C++ constructor's default arguments (1, 0, 0) are Dafny default
  parameter values.
- The C++ constructor never initialises `_cmdMin` and `_cmdMax`. The model
  leaves them unconstrained too. Nothing reads them while `boundRange` is
  false.

## Model

| member | source | states |
|---|---|---|
| `PidLaw.Constrain` | TimedPID.cpp:50 | the clamp returns one of its three arguments; with lo <= hi its result lies in [lo, hi]; an input already in range comes back unchanged; for any order of the bounds an input below lo gives lo and any other input above hi gives hi |
| `PidLaw.ConstrainIsNearest` | TimedPID.h:72-75 | with ordered bounds the clamp picks the point of the range nearest to the raw command, so a command outside the range is forced to the near end |
| `PidLaw.ConstrainIdempotent` | TimedPID.cpp:44-53 | clamping an already clamped command changes nothing |
| `PidLaw.ElapsedMicros` | TimedPID.cpp:77-78 | the unsigned difference is the tick count that takes the stamp to the current clock value modulo 2^32; without a wrap it is the plain difference |
| `PidLaw.ElapsedIsUnique` | TimedPID.cpp:78 | no other count below 2^32 takes the stamp to the current clock value, so the wrapped difference is the elapsed time whenever less than 2^32 us elapsed |
| `PidLaw.StepSeconds` | TimedPID.cpp:84 | the self-timed step is never negative and stays below 2^32 us; it is zero exactly when the clock has not moved since the stamp |
| `PidLaw.UnitStepDerivativeAgrees` | TimedPID.h:48-53 | getCmd's derivative is getCmdStep's derivative at a step of 1 |
| `PidLaw.UnitStepIntegralDiffers` | TimedPID.cpp:88-93 | at a step of 1 getCmdStep's trapezoid integral equals getCmd's rectangle integral if and only if the error did not change |
| `PidLaw.UnitRunIntegral` | TimedPID.cpp:59-64 | after any sequence of getCmd calls the integral has grown by the plain sum of the errors and the previous error is the last one |
| `PidLaw.TrapezoidRunIntegral` | TimedPID.cpp:91-96 | after any non-empty sequence of getCmdStep calls with step dt the integral has grown by the trapezoid-rule sum: dt times (half the starting previous error, every error but the last, half the last) |
| `PidLaw.ConstantErrorUnitIntegral` | TimedPID.cpp:56-71 | from cleared error terms, n getCmd calls with a constant error e leave the integral at n*e |
| `PidLaw.ConstantErrorTrapezoidIntegral` | TimedPID.cpp:88-103 | from cleared error terms, n >= 1 getCmdStep calls with constant error e and step dt leave the integral at (n - 1/2)*e*dt |
| `Controller.TimedPID.constructor` | TimedPID.cpp:36-41 | the gains are the arguments (1, 0, 0 by default), the error terms are zero, the stamp is the clock value, and output is unbounded |
| `Controller.TimedPID.BoundCmd` | TimedPID.cpp:44-53 | unbounded output is returned unchanged; once a range is set, an in-range command is unchanged, one below cmdMin becomes cmdMin, one not below cmdMin but above cmdMax becomes cmdMax (for either order of the bounds), and the result lies in an ordered range |
| `Controller.TimedPID.GetCmd` | TimedPID.cpp:56-71 | only the error terms change: the error is added to the integral and becomes the previous error; the result is the bounded Kp*e + Ki*integral + Kd*(e - previous), inside the range when one is set |
| `Controller.TimedPID.GetCmdAutoStep` | TimedPID.cpp:74-85 | the stamp becomes the clock value; error terms and result are those of getCmdStep with the wrapped tick difference in seconds; nothing else changes |
| `Controller.TimedPID.GetCmdStep` | TimedPID.cpp:88-103 | only the error terms change: the trapezoid over the step is added to the integral and the error becomes the previous error; the result is the bounded Kp*e + Ki*integral + Kd*(e - previous)/dt, inside the range when one is set |
| `Controller.TimedPID.Reset` | TimedPID.cpp:106-112 | the error terms become zero whatever they were, and the stamp becomes the clock value; gains and range are outside its frame |
| `Controller.TimedPID.SetCmdRange` | TimedPID.cpp:115-120 | stores the range and turns clamping on; error terms, gains and stamp are outside its frame |
| `Controller.TimedPID.SetGains` | TimedPID.cpp:123-128 | overwrites the three gains and nothing else |
| `Scenarios.IntegralAccumulates` | TimedPID.cpp:56-71 | with Ki = 1 alone and error 1, three getCmd calls return 1, 2, 3 |
| `Scenarios.DerivativeRespondsToChange` | TimedPID.cpp:61-67 | with Kd = 1 alone, an error that jumps to 5 and stays gives 5 and then 0 |
| `Scenarios.TrapezoidAccumulates` | TimedPID.cpp:91-99 | with Ki = 1 alone, step 2 and error 3, two getCmdStep calls return 3 and 9 |
| `Scenarios.DefaultGainsAreProportional` | TimedPID.h:46 | a controller built with the default gains returns the error itself |
| `Scenarios.AutoStepIsExplicitStep` | TimedPID.cpp:74-85 | a self-timed call returns the same command and leaves the same error terms as getCmdStep given the wrapped elapsed ticks divided by 10^6 |
| `Scenarios.RangeIsPermanent` | TimedPID.cpp:115-120 | after setCmdRange(-1, 1), a later setGains and reset leave clamping on: a raw command of 500 comes out as 1 |
| `Scenarios.ResetTwiceIsResetOnce` | TimedPID.cpp:106-112 | after accumulating error, one reset and two resets leave the same, cleared, error terms |

## Left out

- Floating-point behaviour: rounding, infinities and NaN. Values are reals. A zero time step therefore has no meaning in the model.
- Controller.TimedPID.GetCmdStep: requires `timeStep != 0` instead of modelling the infinite or NaN command a zero step gives in `float`.
- Controller.TimedPID.GetCmdAutoStep: requires the clock to have moved since the stamp (`now != lastCmdTime`), for the same reason. That includes a call exactly 2^32 us after the stamp, where the wrapped difference is zero.
- The `float(timeStep) / 1E6` conversion is exact real division. A `float` cannot hold every tick count below 2^32 exactly.
- The Arduino hardware clock: `micros()` becomes the `now` parameter. `Arduino.h` is not part of this model beyond the `constrain` rule.
- The contents of `_cmdMin` and `_cmdMax` before the first `setCmdRange`. They are indeterminate in C++ and unconstrained here.
- Concurrency: the controller is single-threaded and has no re-entrancy.
