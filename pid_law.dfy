/** The arithmetic behind the TimedPID controller, as pure functions: the
    32-bit microsecond clock and its wrap-around subtraction, Arduino's
    `constrain`, the two ways the error terms are advanced (the unit step of
    getCmd and the trapezoid step of getCmdStep), the PID command, and what
    repeated steps add up to. The class in module Controller is specified by
    these functions. Floats are modelled as reals. */
module PidLaw {

  /** Number of distinct values of Arduino's 32-bit `unsigned long`. */
  const CLOCK_MODULUS: int := 0x1_0000_0000

  /** Arduino's `unsigned long`, the type of micros() and of the time stamp. */
  newtype u32 = x: int | 0 <= x < CLOCK_MODULUS

  /** micros() ticks per second: the `1E6` that turns a tick count into seconds. */
  const MICROS_PER_SECOND: real := 1000000.0

  /** Gains used by the constructor when the caller gives none. */
  const DEFAULT_KP: real := 1.0
  const DEFAULT_KI: real := 0.0
  const DEFAULT_KD: real := 0.0

  datatype Gains = Gains(kp: real, ki: real, kd: real)

  /** The controller's memory of past errors: the error of the last command
      computation and the running integral of the error. */
  datatype ErrorTerms = ErrorTerms(previous: real, integral: real)

  /** The error terms after construction or reset. */
  const Cleared: ErrorTerms := ErrorTerms(0.0, 0.0)

  // ---------------------------------------------------------------------------
  // The clamp

  /** Arduino's `constrain(x, lo, hi)`, that is `x < lo ? lo : (x > hi ? hi : x)`.
      Nothing requires lo <= hi: with the bounds in the wrong order the result
      is still one of the three arguments, lo for any input below lo and hi
      for any other input above hi. */
  function Constrain(x: real, lo: real, hi: real): (r: real)
    ensures r == x || r == lo || r == hi
    ensures lo <= hi ==> lo <= r <= hi
    ensures lo <= x <= hi ==> r == x
    ensures x < lo ==> r == lo
    ensures lo <= x && hi < x ==> r == hi
  {
    if x < lo then lo else if x > hi then hi else x
  }

  function Abs(x: real): real
  {
    if x < 0.0 then -x else x
  }

  /** With ordered bounds, the clamp picks the point of [lo, hi] nearest to x. */
  lemma ConstrainIsNearest(x: real, lo: real, hi: real, y: real)
    requires lo <= y <= hi
    ensures Abs(Constrain(x, lo, hi) - x) <= Abs(y - x)
  {
  }

  /** Clamping twice is clamping once, when the bounds are ordered. */
  lemma ConstrainIdempotent(x: real, lo: real, hi: real)
    requires lo <= hi
    ensures Constrain(Constrain(x, lo, hi), lo, hi) == Constrain(x, lo, hi)
  {
  }

  // ---------------------------------------------------------------------------
  // The clock

  /** `now - last` computed in `unsigned long`: the number of ticks that takes
      the counter from `last` to `now`, going round past 2^32 - 1 if need be. */
  function ElapsedMicros(now: u32, last: u32): (d: u32)
    ensures (last as int + d as int) % CLOCK_MODULUS == now as int
    ensures last <= now ==> d == now - last
  {
    ((now as int - last as int) % CLOCK_MODULUS) as u32
  }

  /** The tick count is the only one below 2^32 that takes `last` to `now`. */
  lemma ElapsedIsUnique(now: u32, last: u32, d: int)
    requires 0 <= d < CLOCK_MODULUS
    requires (last as int + d) % CLOCK_MODULUS == now as int
    ensures d == ElapsedMicros(now, last) as int
  {
  }

  /** The time step getCmdAutoStep hands to getCmdStep: the elapsed ticks in
      seconds. It is never negative, stays below 2^32 microseconds, and is
      zero exactly when the clock reads the same value as the stamp. */
  function StepSeconds(now: u32, last: u32): (dt: real)
    ensures 0.0 <= dt < CLOCK_MODULUS as real / MICROS_PER_SECOND
    ensures dt == 0.0 <==> now == last
  {
    ElapsedMicros(now, last) as real / MICROS_PER_SECOND
  }

  // ---------------------------------------------------------------------------
  // One command computation

  /** getCmd's update: the error is added to the integral as is (a rectangle
      of width 1) and becomes the previous error. */
  function UnitStep(s: ErrorTerms, error: real): ErrorTerms
  {
    ErrorTerms(error, s.integral + error)
  }

  /** getCmd's derivative: the plain difference from the previous error. */
  function UnitDerivative(s: ErrorTerms, error: real): real
  {
    error - s.previous
  }

  /** getCmdStep's update: the trapezoid between the previous and the current
      error over a step of dt is added to the integral. */
  function TrapezoidStep(s: ErrorTerms, error: real, dt: real): ErrorTerms
  {
    ErrorTerms(error, s.integral + (error + s.previous) / 2.0 * dt)
  }

  /** getCmdStep's derivative: the backward difference over a step of dt. */
  function StepDerivative(s: ErrorTerms, error: real, dt: real): real
    requires dt != 0.0
  {
    (error - s.previous) / dt
  }

  /** The unclamped command `Kp*e + Ki*integral + Kd*derivative`. */
  function Command(g: Gains, error: real, integral: real, derivative: real): real
  {
    g.kp * error + g.ki * integral + g.kd * derivative
  }

  /** A step of 1 gives getCmdStep's derivative the value of getCmd's. */
  lemma UnitStepDerivativeAgrees(s: ErrorTerms, error: real)
    ensures StepDerivative(s, error, 1.0) == UnitDerivative(s, error)
  {
  }

  /** A step of 1 does not make the two integrals agree: the trapezoid adds
      the mean of the two errors, the rectangle the current error, and they
      coincide only when the error has not changed. */
  lemma UnitStepIntegralDiffers(s: ErrorTerms, error: real)
    ensures TrapezoidStep(s, error, 1.0).previous == UnitStep(s, error).previous
    ensures TrapezoidStep(s, error, 1.0) == UnitStep(s, error) <==> error == s.previous
  {
  }

  // ---------------------------------------------------------------------------
  // Repeated command computations

  function Sum(xs: seq<real>): real
  {
    if xs == [] then 0.0 else xs[0] + Sum(xs[1..])
  }

  function Last(xs: seq<real>): real
    requires xs != []
  {
    xs[|xs| - 1]
  }

  /** The error terms after getCmd has been called with each error of
      `errors` in turn, starting from `s`. */
  function UnitRun(s: ErrorTerms, errors: seq<real>): ErrorTerms
    decreases |errors|
  {
    if errors == [] then s else UnitRun(UnitStep(s, errors[0]), errors[1..])
  }

  /** The error terms after getCmdStep has been called with each error of
      `errors` in turn and the same step dt, starting from `s`. */
  function TrapezoidRun(s: ErrorTerms, errors: seq<real>, dt: real): ErrorTerms
    decreases |errors|
  {
    if errors == [] then s else TrapezoidRun(TrapezoidStep(s, errors[0], dt), errors[1..], dt)
  }

  /** getCmd's integral is the plain sum of the errors it has seen, and its
      previous error is the last of them. */
  lemma {:induction false} UnitRunIntegral(s: ErrorTerms, errors: seq<real>)
    decreases |errors|
    ensures UnitRun(s, errors).integral == s.integral + Sum(errors)
    ensures UnitRun(s, errors).previous == if errors == [] then s.previous else Last(errors)
  {
    if errors != [] {
      UnitRunIntegral(UnitStep(s, errors[0]), errors[1..]);
      if errors[1..] != [] {
        assert Last(errors[1..]) == Last(errors);
      }
    }
  }

  /** getCmdStep's integral over steps of dt is the trapezoid rule:
      dt times (half the starting error, every error seen but the last in
      full, half the last). */
  lemma {:induction false} TrapezoidRunIntegral(s: ErrorTerms, errors: seq<real>, dt: real)
    requires errors != []
    decreases |errors|
    ensures TrapezoidRun(s, errors, dt).integral
         == s.integral + dt * (s.previous / 2.0 + Sum(errors) - Last(errors) / 2.0)
    ensures TrapezoidRun(s, errors, dt).previous == Last(errors)
  {
    var e0 := errors[0];
    var next := TrapezoidStep(s, e0, dt);
    if |errors| == 1 {
      assert errors[1..] == [];
      assert Sum(errors) == e0;
    } else {
      var rest := errors[1..];
      TrapezoidRunIntegral(next, rest, dt);
      assert Last(rest) == Last(errors);
      assert Sum(errors) == e0 + Sum(rest);
      calc {
        TrapezoidRun(s, errors, dt).integral;
        next.integral + dt * (e0 / 2.0 + Sum(rest) - Last(errors) / 2.0);
        s.integral + dt * ((e0 + s.previous) / 2.0) + dt * (e0 / 2.0 + Sum(rest) - Last(errors) / 2.0);
        s.integral + dt * (s.previous / 2.0 + Sum(errors) - Last(errors) / 2.0);
      }
    }
  }

  /** n copies of the same error add up to n times that error. */
  lemma {:induction false} SumOfConstant(error: real, n: nat)
    ensures Sum(seq(n, _ => error)) == n as real * error
  {
    if n > 0 {
      var xs := seq(n, _ => error);
      assert xs[0] == error;
      assert xs[1..] == seq(n - 1, _ => error);
      SumOfConstant(error, n - 1);
      assert Sum(xs) == error + Sum(xs[1..]);
    }
  }

  /** From cleared error terms, n getCmd calls with a constant error e leave
      the integral at n*e. */
  lemma ConstantErrorUnitIntegral(error: real, n: nat)
    ensures UnitRun(Cleared, seq(n, _ => error)).integral == n as real * error
  {
    UnitRunIntegral(Cleared, seq(n, _ => error));
    SumOfConstant(error, n);
  }

  /** From cleared error terms, n >= 1 getCmdStep calls with a constant error e
      and step dt leave the integral at (n - 1/2)*e*dt: the first trapezoid
      starts from a previous error of 0. */
  lemma ConstantErrorTrapezoidIntegral(error: real, n: nat, dt: real)
    requires n >= 1
    ensures TrapezoidRun(Cleared, seq(n, _ => error), dt).integral == (n as real - 0.5) * error * dt
  {
    TrapezoidRunIntegral(Cleared, seq(n, _ => error), dt);
    SumOfConstant(error, n);
  }
}
