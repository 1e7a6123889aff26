/** The TimedPID controller object: a PID controller whose methods update its
    fields in place. Each method's frame names exactly the fields the source
    method assigns, so the frames themselves state which operations may change
    the gains, the command range and the error terms. The Arduino clock
    micros() is read by the caller and passed in as `now`. */
module Controller {
  import opened PidLaw

  class TimedPID {
    // Command range
    var cmdMin: real
    var cmdMax: real
    var boundRange: bool

    // Error terms
    var errorPrevious: real
    var errorIntegral: real

    // Gains
    var kp: real
    var ki: real
    var kd: real

    /** Clock value of the last getCmdAutoStep call, reset or construction. */
    var lastCmdTime: u32

    function Terms(): ErrorTerms
      reads this
    {
      ErrorTerms(errorPrevious, errorIntegral)
    }

    function CurrentGains(): Gains
      reads this
    {
      Gains(kp, ki, kd)
    }

    /** Sets the gains, clears the error terms, stamps the clock and leaves the
        command unbounded. The command range itself is left unset. */
    constructor (now: u32, kp: real := DEFAULT_KP, ki: real := DEFAULT_KI, kd: real := DEFAULT_KD)
      ensures CurrentGains() == Gains(kp, ki, kd)
      ensures Terms() == Cleared
      ensures lastCmdTime == now
      ensures !boundRange
    {
      new;
      SetGains(kp, ki, kd);
      Reset(now);
      boundRange := false;
    }

    /** The command as returned to the caller: unchanged while no range is
        set; once one is, forced to cmdMin below it and to cmdMax above it. */
    function BoundCmd(cmdIn: real): (cmdOut: real)
      reads this
      ensures !boundRange ==> cmdOut == cmdIn
      ensures boundRange && cmdMin <= cmdMax ==> cmdMin <= cmdOut <= cmdMax
      ensures boundRange && cmdMin <= cmdIn <= cmdMax ==> cmdOut == cmdIn
      ensures boundRange && cmdIn < cmdMin ==> cmdOut == cmdMin
      ensures boundRange && cmdMin <= cmdIn && cmdIn > cmdMax ==> cmdOut == cmdMax
    {
      if boundRange then Constrain(cmdIn, cmdMin, cmdMax) else cmdIn
    }

    /** Command with no time step (a step of 1): the error is summed into the
        integral and differenced against the previous error. */
    method GetCmd(setPoint: real, procVar: real) returns (cmd: real)
      modifies this`errorPrevious, this`errorIntegral
      ensures Terms() == UnitStep(old(Terms()), setPoint - procVar)
      ensures cmd == BoundCmd(Command(CurrentGains(), setPoint - procVar, errorIntegral,
                                      UnitDerivative(old(Terms()), setPoint - procVar)))
      ensures boundRange && cmdMin <= cmdMax ==> cmdMin <= cmd <= cmdMax
    {
      var error := setPoint - procVar;
      errorIntegral := errorIntegral + error;
      var errorDerivative := error - errorPrevious;

      errorPrevious := error;

      var raw := kp * error + ki * errorIntegral + kd * errorDerivative;
      assert raw == Command(CurrentGains(), error, errorIntegral, UnitDerivative(old(Terms()), error));
      cmd := BoundCmd(raw);
    }

    /** Command with the time step measured on the clock: the ticks since the
        last stamp, wrapping round at 2^32, in seconds. Apart from the new
        stamp it is getCmdStep with that step. */
    method GetCmdAutoStep(setPoint: real, procVar: real, now: u32) returns (cmd: real)
      requires now != lastCmdTime
      modifies this`errorPrevious, this`errorIntegral, this`lastCmdTime
      ensures lastCmdTime == now
      ensures Terms() == TrapezoidStep(old(Terms()), setPoint - procVar, StepSeconds(now, old(lastCmdTime)))
      ensures cmd == BoundCmd(Command(CurrentGains(), setPoint - procVar, errorIntegral,
                                      StepDerivative(old(Terms()), setPoint - procVar,
                                                     StepSeconds(now, old(lastCmdTime)))))
      ensures boundRange && cmdMin <= cmdMax ==> cmdMin <= cmd <= cmdMax
    {
      var timeStep := ElapsedMicros(now, lastCmdTime);

      lastCmdTime := now;

      cmd := GetCmdStep(setPoint, procVar, timeStep as real / MICROS_PER_SECOND);
    }

    /** Command with a time step given by the caller: trapezoid integral and
        backward-difference derivative over that step. */
    method GetCmdStep(setPoint: real, procVar: real, timeStep: real) returns (cmd: real)
      requires timeStep != 0.0
      modifies this`errorPrevious, this`errorIntegral
      ensures Terms() == TrapezoidStep(old(Terms()), setPoint - procVar, timeStep)
      ensures cmd == BoundCmd(Command(CurrentGains(), setPoint - procVar, errorIntegral,
                                      StepDerivative(old(Terms()), setPoint - procVar, timeStep)))
      ensures boundRange && cmdMin <= cmdMax ==> cmdMin <= cmd <= cmdMax
    {
      var error := setPoint - procVar;
      errorIntegral := errorIntegral + (error + errorPrevious) / 2.0 * timeStep;
      var errorDerivative := (error - errorPrevious) / timeStep;

      errorPrevious := error;

      var raw := kp * error + ki * errorIntegral + kd * errorDerivative;
      assert raw == Command(CurrentGains(), error, errorIntegral, StepDerivative(old(Terms()), error, timeStep));
      cmd := BoundCmd(raw);
    }

    /** Clears the error terms and restamps the clock; gains and range stay.
        The new state does not depend on the old error terms, so a second
        reset at the same clock value changes nothing. */
    method Reset(now: u32)
      modifies this`errorPrevious, this`errorIntegral, this`lastCmdTime
      ensures Terms() == Cleared
      ensures lastCmdTime == now
    {
      errorPrevious := 0.0;
      errorIntegral := 0.0;

      lastCmdTime := now;
    }

    /** Turns clamping on with the given range. Nothing turns it off again. */
    method SetCmdRange(cmdMin: real, cmdMax: real)
      modifies this`cmdMin, this`cmdMax, this`boundRange
      ensures this.cmdMin == cmdMin && this.cmdMax == cmdMax
      ensures boundRange
    {
      this.cmdMin := cmdMin;
      this.cmdMax := cmdMax;
      boundRange := true;
    }

    method SetGains(kp: real, ki: real, kd: real)
      modifies this`kp, this`ki, this`kd
      ensures CurrentGains() == Gains(kp, ki, kd)
    {
      this.kp := kp;
      this.ki := ki;
      this.kd := kd;
    }
  }
}
