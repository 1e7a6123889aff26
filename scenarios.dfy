/** Clients of the controller that run the worked examples of its behaviour
    through the class methods. Each result follows from the methods'
    contracts alone. */
module Scenarios {
  import opened PidLaw
  import opened Controller

  /** Integral gain 1 alone, unbounded, error 1 three times: the command
      climbs 1, 2, 3 with the integral. */
  method IntegralAccumulates(now: u32) returns (c1: real, c2: real, c3: real)
    ensures c1 == 1.0 && c2 == 2.0 && c3 == 3.0
  {
    var pid := new TimedPID(now, 0.0, 1.0, 0.0);
    assert pid.CurrentGains() == Gains(0.0, 1.0, 0.0) && !pid.boundRange && pid.Terms() == Cleared;
    c1 := pid.GetCmd(1.0, 0.0);
    assert pid.CurrentGains() == Gains(0.0, 1.0, 0.0) && !pid.boundRange && pid.Terms() == ErrorTerms(1.0, 1.0);
    c2 := pid.GetCmd(1.0, 0.0);
    assert pid.CurrentGains() == Gains(0.0, 1.0, 0.0) && !pid.boundRange && pid.Terms() == ErrorTerms(1.0, 2.0);
    c3 := pid.GetCmd(1.0, 0.0);
  }

  /** Derivative gain 1 alone, unbounded: a step of the error to 5 gives 5,
      and holding it there gives 0. */
  method DerivativeRespondsToChange(now: u32) returns (c1: real, c2: real)
    ensures c1 == 5.0 && c2 == 0.0
  {
    var pid := new TimedPID(now, 0.0, 0.0, 1.0);
    assert pid.CurrentGains() == Gains(0.0, 0.0, 1.0) && !pid.boundRange && pid.Terms() == Cleared;
    c1 := pid.GetCmd(5.0, 0.0);
    assert pid.CurrentGains() == Gains(0.0, 0.0, 1.0) && !pid.boundRange && pid.Terms() == ErrorTerms(5.0, 5.0);
    c2 := pid.GetCmd(5.0, 0.0);
  }

  /** Integral gain 1 alone, step 2, error 3 twice: the trapezoids add 3 and
      then 6, so the commands are 3 and 9. */
  method TrapezoidAccumulates(now: u32) returns (c1: real, c2: real)
    ensures c1 == 3.0 && c2 == 9.0
  {
    var pid := new TimedPID(now, 0.0, 1.0, 0.0);
    assert pid.CurrentGains() == Gains(0.0, 1.0, 0.0) && !pid.boundRange && pid.Terms() == Cleared;
    assert StepDerivative(Cleared, 3.0, 2.0) == 1.5;
    c1 := pid.GetCmdStep(4.0, 1.0, 2.0);
    assert pid.CurrentGains() == Gains(0.0, 1.0, 0.0) && !pid.boundRange && pid.Terms() == ErrorTerms(3.0, 3.0);
    assert StepDerivative(ErrorTerms(3.0, 3.0), 3.0, 2.0) == 0.0;
    c2 := pid.GetCmdStep(4.0, 1.0, 2.0);
  }

  /** With the default gains (proportional 1) the command is the error. */
  method DefaultGainsAreProportional(now: u32, setPoint: real, procVar: real) returns (cmd: real)
    ensures cmd == setPoint - procVar
  {
    var pid := new TimedPID(now);
    cmd := pid.GetCmd(setPoint, procVar);
  }

  /** Two controllers built alike at clock value `start`: one computes its
      command on the clock at `later`, the other is handed the elapsed time
      in seconds, counted in wrapping 32-bit ticks. Both return the same
      command and end with the same error terms. */
  method AutoStepIsExplicitStep(start: u32, later: u32, kp: real, ki: real, kd: real,
                                setPoint: real, procVar: real)
    returns (auto: real, explicit: real, sameTerms: bool)
    requires later != start
    ensures auto == explicit && sameTerms
  {
    var timed := new TimedPID(start, kp, ki, kd);
    var stepped := new TimedPID(start, kp, ki, kd);
    auto := timed.GetCmdAutoStep(setPoint, procVar, later);
    explicit := stepped.GetCmdStep(setPoint, procVar, ElapsedMicros(later, start) as real / MICROS_PER_SECOND);
    sameTerms := timed.Terms() == stepped.Terms();
  }

  /** Once a range is set, changing the gains or resetting does not lift
      it: a proportional command of 500 still comes out as the maximum. */
  method RangeIsPermanent(now: u32, later: u32) returns (cmd: real)
    ensures cmd == 1.0
  {
    var pid := new TimedPID(now);
    pid.SetCmdRange(-1.0, 1.0);
    pid.SetGains(100.0, 0.0, 0.0);
    pid.Reset(later);
    cmd := pid.GetCmd(5.0, 0.0);
  }

  /** Resetting once or twice leaves the same error terms, whatever the
      controller had accumulated before. */
  method ResetTwiceIsResetOnce(now: u32, setPoint: real, procVar: real)
    returns (once: ErrorTerms, twice: ErrorTerms)
    ensures once == twice == Cleared
  {
    var pid := new TimedPID(now, 1.0, 1.0, 1.0);
    var first := pid.GetCmd(setPoint, procVar);
    pid.Reset(now);
    once := pid.Terms();
    pid.Reset(now);
    twice := pid.Terms();
  }
}
