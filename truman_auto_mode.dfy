/**
 * The op mode itself: an object whose fields are the machine's run-local
 * state and the last power or position written to each actuator. `Loop` is
 * one tick of the host's scheduler; it is proved to change the fields exactly
 * as `AutoStep.Step` describes, so every property proved of `Step` and `Run`
 * holds of the object's successive states.
 */
module TrumanAuto {
  import opened Wrappers
  import opened AutoTypes
  import opened ColorGuess
  import opened AutoStep

  class TrumanAutoMode {
    // Construction parameters.
    const turning: Turn
    const seekColor: Color
    const timeDelay: real

    // Run-local state.
    var state: State
    var timeAtStart: real
    var timeToMove: real
    var timeToScan: real
    var leftSideGuess: Option<Color>
    var rightSideGuess: Option<Color>

    // Last power written to each drive motor and flywheel.
    var frontRight: real
    var backRight: real
    var frontLeft: real
    var backLeft: real
    var propRight: real
    var propLeft: real
    // Last power written to the slide's continuous-rotation servo, and last
    // position written to the ball guard and the left servo.
    var slide: real
    var ballGuard: real
    var leftServo: real

    function Cfg(): Config {
      Config(turning, seekColor, timeDelay)
    }

    /** The object's fields as a `Machine` value. */
    function Snap(): Machine
      reads this
    {
      Machine(state, timeAtStart, timeToMove, timeToScan, leftSideGuess, rightSideGuess,
              Drive(frontRight, backRight, frontLeft, backLeft),
              propRight, propLeft, slide, ballGuard, leftServo)
    }

    /**
     * The constructor together with `init()`: the motors start unpowered, the
     * ball guard is set to its neutral position, and the run-local state is
     * reset at the host's current `time`.
     */
    constructor (turn: Turn, color: Color, delay: real, time: real)
      ensures Cfg() == Config(turn, color, delay)
      ensures Snap() == Machine(Begin, time, 0.0, 0.0, None, None, MOTORS_STOPPED,
                                0.0, 0.0, 0.0, 0.5, 0.0)
    {
      turning, seekColor, timeDelay := turn, color, delay;
      frontRight, backRight, frontLeft, backLeft := 0.0, 0.0, 0.0, 0.0;
      propRight, propLeft, slide, leftServo := 0.0, 0.0, 0.0, 0.0;
      state, timeAtStart, timeToMove, timeToScan := Begin, 0.0, 0.0, 0.0;
      leftSideGuess, rightSideGuess := None, None;
      new;
      ballGuard := 0.5;
      ResetState(time);
    }

    /** `start()`: the host (re)starts the run. */
    method Start(time: real)
      modifies this
      ensures Snap() == old(Snap()).(state := Begin, timeAtStart := time,
                                     timeToMove := 0.0, timeToScan := 0.0,
                                     leftGuess := None, rightGuess := None,
                                     slide := 0.0, leftServo := 0.0)
    {
      ResetState(time);
    }

    /**
     * `resetState`: park the left servo and the slide, clear the scratch
     * values, and enter `Begin`. The entry time is first cleared and then
     * stamped with `time` by the state change.
     */
    method ResetState(time: real)
      modifies this
      ensures Snap() == old(Snap()).(state := Begin, timeAtStart := time,
                                     timeToMove := 0.0, timeToScan := 0.0,
                                     leftGuess := None, rightGuess := None,
                                     slide := 0.0, leftServo := 0.0)
    {
      leftServo := 0.0;
      slide := 0.0;
      timeAtStart := 0.0;
      timeToMove := 0.0;
      timeToScan := 0.0;
      leftSideGuess := None;
      rightSideGuess := None;
      ChangeState(Begin, time);
    }

    /** `changeState`: enter `newState` at the host's current `time`; nothing else changes. */
    method ChangeState(newState: State, time: real)
      modifies this
      ensures Snap() == AutoStep.ChangeState(old(Snap()), newState, time)
    {
      timeAtStart := time;
      state := newState;
    }

    method SetDrive(fr: real, br: real, fl: real, bl: real)
      modifies this
      ensures Snap() == old(Snap()).(drive := Drive(fr, br, fl, bl))
    {
      frontRight, backRight, frontLeft, backLeft := fr, br, fl, bl;
    }

    method SetMotorsForward()
      modifies this
      ensures Snap() == old(Snap()).(drive := MOTORS_FORWARD)
    {
      SetDrive(MOTOR_POWER, MOTOR_POWER, MOTOR_POWER, MOTOR_POWER);
    }

    method SetMotorsBackward()
      modifies this
      ensures Snap() == old(Snap()).(drive := MOTORS_BACKWARD)
    {
      SetDrive(-MOTOR_POWER, -MOTOR_POWER, -MOTOR_POWER, -MOTOR_POWER);
    }

    method SetMotorsForwardSlow()
      modifies this
      ensures Snap() == old(Snap()).(drive := MOTORS_FORWARD_SLOW)
    {
      SetDrive(SLOW_MOTOR_POWER, SLOW_MOTOR_POWER, SLOW_MOTOR_POWER, SLOW_MOTOR_POWER);
    }

    method SetMotorsBackwardSlow()
      modifies this
      ensures Snap() == old(Snap()).(drive := MOTORS_BACKWARD_SLOW)
    {
      SetDrive(-SLOW_MOTOR_POWER, -SLOW_MOTOR_POWER, -SLOW_MOTOR_POWER, -SLOW_MOTOR_POWER);
    }

    method SetMotorsStopped()
      modifies this
      ensures Snap() == old(Snap()).(drive := MOTORS_STOPPED)
    {
      SetDrive(0.0, 0.0, 0.0, 0.0);
    }

    method SetTurnRight()
      modifies this
      ensures Snap() == old(Snap()).(drive := TURN_RIGHT)
    {
      SetDrive(-MOTOR_POWER, -MOTOR_POWER, MOTOR_POWER, MOTOR_POWER);
    }

    method SetTurnLeft()
      modifies this
      ensures Snap() == old(Snap()).(drive := TURN_LEFT)
    {
      SetDrive(MOTOR_POWER, MOTOR_POWER, -MOTOR_POWER, -MOTOR_POWER);
    }

    method SetTurnRightSlow()
      modifies this
      ensures Snap() == old(Snap()).(drive := TURN_RIGHT_SLOW)
    {
      SetDrive(-SLOW_TURN_POWER, -SLOW_TURN_POWER, SLOW_TURN_POWER, SLOW_TURN_POWER);
    }

    method SetTurnLeftSlow()
      modifies this
      ensures Snap() == old(Snap()).(drive := TURN_LEFT_SLOW)
    {
      SetDrive(SLOW_TURN_POWER, SLOW_TURN_POWER, -SLOW_TURN_POWER, -SLOW_TURN_POWER);
    }

    method SetProps(p: real)
      modifies this
      ensures Snap() == AutoStep.SetProps(old(Snap()), p)
    {
      propRight := p;
      propLeft := p;
    }

    /**
     * `loop()`: one tick at the host's `time`, given the bottom sensor's
     * brightness, the front sensor's red and blue channels and the optical
     * range. The new state is exactly `Step` of the old one. The source's
     * single switch is split by phase into the methods below.
     */
    method Loop(time: real, bottomAlpha: int, red: nat, blue: nat, optical: int)
      modifies this
      ensures Snap() == Step(Cfg(), old(Snap()), Reading(time, bottomAlpha, red, blue, optical))
    {
      var rd := Reading(time, bottomAlpha, red, blue, optical);
      ghost var m0 := Snap();
      match state
      case RampUpShootStageOne | RampUpShootStageTwo | ShootingBalls | RampDownShootStageOne | RampDownShootStageTwo =>
        assert Step(Cfg(), m0, rd) == ShootingTick(m0, rd);
        ShootingLoop(rd);
      case DrivingTowardsBall | Start | BackingFromBall | Turning =>
        assert Step(Cfg(), m0, rd) == ApproachTick(Cfg(), m0, rd);
        ApproachLoop(rd);
      case Begin | Searching | Stopped | Moving_Beyond | Moving_Timed =>
        assert Step(Cfg(), m0, rd) == LineTick(Cfg(), m0, rd);
        LineLoop(rd);
      case Orienting | Orienting_Further | Orienting_Back | Moving =>
        assert Step(Cfg(), m0, rd) == OrientTick(Cfg(), m0, rd);
        OrientLoop(rd);
      case ScanningLeft | CenteringFromLeft | ScanningRight | CenteringFromRight | Picking =>
        assert Step(Cfg(), m0, rd) == ScanTick(Cfg(), m0, rd);
        ScanLoop(rd);
      case GoLeft | GoRight | Clicking | Backing | Done =>
        assert Step(Cfg(), m0, rd) == FinishTick(m0, rd);
        FinishLoop(rd);
    }

    /** The flywheel ramp states of `loop()`. */
    method ShootingLoop(rd: Reading)
      requires IsShootingState(state)
      modifies this
      ensures Snap() == ShootingTick(old(Snap()), rd)
    {
      var time := rd.time;
      match state
      case RampUpShootStageOne =>
        if time - timeAtStart < RAMP_TIME {
          SetProps(0.4);
        } else {
          ChangeState(RampUpShootStageTwo, time);
        }
      case RampUpShootStageTwo =>
        if time - timeAtStart < RAMP_TIME {
          SetProps(0.7);
        } else {
          ChangeState(ShootingBalls, time);
        }
      case ShootingBalls =>
        if time - timeAtStart < SHOOTING_TIME {
          SetProps(1.0);
          ballGuard := 0.0;
        } else {
          ChangeState(RampDownShootStageOne, time);
        }
      case RampDownShootStageOne =>
        if time - timeAtStart < RAMP_TIME {
          SetProps(0.5);
        } else {
          ChangeState(RampDownShootStageTwo, time);
        }
      case RampDownShootStageTwo =>
        if time - timeAtStart < RAMP_TIME {
          SetProps(0.2);
        } else {
          SetProps(0.0);
          ChangeState(State.Start, time);
        }
    }

    /** The ball-driving, start-delay and turning states of `loop()`. */
    method ApproachLoop(rd: Reading)
      requires IsApproachState(state)
      modifies this
      ensures Snap() == ApproachTick(Cfg(), old(Snap()), rd)
    {
      var time := rd.time;
      match state
      case DrivingTowardsBall =>
        SetMotorsBackward();
        if time - timeAtStart >= TIME_TOWARDS_BALL {
          SetMotorsStopped();
          ChangeState(State.Start, time);
        }
      case Start =>
        if time >= timeDelay {
          ChangeState(Turning, time);
        }
      case BackingFromBall =>
        SetMotorsForward();
        if time - timeAtStart >= TIME_FROM_BALL {
          SetMotorsStopped();
          ChangeState(Turning, time);
        }
      case Turning =>
        if turning == Left {
          SetTurnLeft();
        } else {
          SetTurnRight();
        }
        if time - timeAtStart > FIRST_TURING_TIME {
          ChangeState(Searching, time);
        }
    }

    /** `Begin` and the line-finding states of `loop()`. */
    method LineLoop(rd: Reading)
      requires IsLineState(state)
      modifies this
      ensures Snap() == LineTick(Cfg(), old(Snap()), rd)
    {
      var time, bottomAlpha := rd.time, rd.bottomAlpha;
      match state
      case Begin =>
        ChangeState(Searching, time);
      case Searching =>
        SetMotorsForwardSlow();
        if bottomAlpha >= COLOR_ON_WHITE_THRESHOLD {
          ChangeState(Stopped, time);
        }
      case Stopped =>
        if time - timeAtStart <= TIME_STOPPED {
          SetMotorsStopped();
        } else {
          ChangeState(Moving_Beyond, time);
        }
      case Moving_Beyond =>
        SetMotorsForwardSlow();
        if bottomAlpha <= COLOR_OFF_WHITE_THRESHOLD {
          timeToMove := time - timeAtStart;
          ChangeState(Moving_Timed, time);
        }
      case Moving_Timed =>
        SetMotorsForwardSlow();
        if time - timeAtStart > timeToMove {
          ChangeState(Orienting, time);
        }
    }

    /** The orienting and beacon-approach states of `loop()`. */
    method OrientLoop(rd: Reading)
      requires IsOrientState(state)
      modifies this
      ensures Snap() == OrientTick(Cfg(), old(Snap()), rd)
    {
      var time, bottomAlpha, optical := rd.time, rd.bottomAlpha, rd.optical;
      match state
      case Orienting =>
        if turning == Left {
          SetTurnRightSlow();
        } else {
          SetTurnLeftSlow();
        }
        if bottomAlpha >= COLOR_ON_WHITE_THRESHOLD {
          SetMotorsStopped();
          ChangeState(Moving, time);
        }
      case Orienting_Further =>
        if bottomAlpha <= COLOR_OFF_WHITE_THRESHOLD {
          timeToMove := time - timeAtStart;
          ChangeState(Orienting_Back, time);
        }
      case Orienting_Back =>
        if turning == Left {
          SetTurnLeftSlow();
        } else {
          SetTurnRightSlow();
        }
        if time - timeAtStart > timeToMove / 2.0 {
          ChangeState(Moving, time);
          // Cut the motors so the robot does not overshoot.
          SetMotorsStopped();
        }
      case Moving =>
        SetMotorsForwardSlow();
        if optical >= DISTANCE_MINIMUM {
          ChangeState(ScanningLeft, time);
        }
        if time - timeAtStart > MOVING_TIMEOUT {
          ChangeState(Backing, time);
        }
    }

    /** The beacon-scanning and side-picking states of `loop()`. */
    method ScanLoop(rd: Reading)
      requires IsScanState(state)
      modifies this
      ensures Snap() == ScanTick(Cfg(), old(Snap()), rd)
    {
      var time, red, blue := rd.time, rd.red, rd.blue;
      match state
      case ScanningLeft =>
        leftSideGuess := GuessFrontColor(red, blue);
        if time - timeAtStart < SCAN_LEFT_TIME && leftSideGuess == None {
          slide := SCAN_LEFT_SLIDE_POWER;
        } else {
          // Remember how long the left scan took.
          timeToScan := time - timeAtStart;
          ChangeState(CenteringFromLeft, time);
        }
      case CenteringFromLeft =>
        if time - timeAtStart < timeToScan {
          // Slide right for as long as the left scan took, to re-centre.
          slide := SCAN_RIGHT_SLIDE_POWER;
        } else {
          ChangeState(ScanningRight, time);
        }
      case ScanningRight =>
        rightSideGuess := GuessFrontColor(red, blue);
        if time - timeAtStart < timeToScan && rightSideGuess == None {
          slide := SCAN_RIGHT_SLIDE_POWER;
        } else {
          ChangeState(CenteringFromRight, time);
        }
      case CenteringFromRight =>
        if time - timeAtStart < timeToScan {
          slide := SCAN_RIGHT_SLIDE_POWER;
        }
        ChangeState(Picking, time);
      case Picking =>
        if leftSideGuess == Some(seekColor) {
          ChangeState(GoLeft, time);
        } else if rightSideGuess == Some(seekColor) {
          ChangeState(GoRight, time);
        } else {
          // Neither side matched: going right is as good as going left.
          ChangeState(GoRight, time);
        }
    }

    /** The button-pressing, backing and final states of `loop()`. */
    method FinishLoop(rd: Reading)
      requires IsFinishState(state)
      modifies this
      ensures Snap() == FinishTick(old(Snap()), rd)
    {
      var time := rd.time;
      match state
      case GoLeft =>
        if time - timeAtStart < CLICKER_SLIDE_TIME {
          slide := -1.0;
        } else {
          ChangeState(Clicking, time);
        }
      case GoRight =>
        if time - timeAtStart < CLICKER_SLIDE_TIME {
          slide := 1.0;
        } else {
          ChangeState(Clicking, time);
        }
      case Clicking =>
        if time - timeAtStart < CLICKING_FORWARD_TIME {
          SetMotorsForward();
        } else {
          ChangeState(Backing, time);
        }
      case Backing =>
        // Before the safety time, backing up is unsafe: do nothing.
        if time >= BACKING_SAFE_TIME {
          SetMotorsBackward();
          if time - timeAtStart >= BACKING_UP_TIME {
            ChangeState(Done, time);
          }
        }
      case Done =>
        SetMotorsStopped();
    }
  }
}
