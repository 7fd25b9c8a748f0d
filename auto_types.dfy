/**
 * The vocabulary of the autonomous controller: its enums, its tuning
 * constants, the drive commands its helpers issue, and the value-level view
 * of everything one tick of `loop()` reads and writes.
 */
module AutoTypes {
  import opened Wrappers

  // Drive and timing constants. The source declares them as `float`/`double`
  // literals; here they are the exact reals those literals denote.
  const MOTOR_POWER: real := 0.2
  const SLOW_MOTOR_POWER: real := 0.1
  const SLOW_TURN_POWER: real := 0.2
  const TIME_STOPPED: real := 1.0
  const RAMP_TIME: real := 0.6
  const SHOOTING_TIME: real := 2.0
  const FIRST_TURING_TIME: real := 1.2
  const DISTANCE_MINIMUM: int := 10
  const SCAN_LEFT_SLIDE_POWER: real := -1.0
  const SCAN_RIGHT_SLIDE_POWER: real := 1.0
  const COLOR_ON_WHITE_THRESHOLD: int := 3
  const COLOR_OFF_WHITE_THRESHOLD: int := 1
  const CLICKER_SLIDE_TIME: real := 0.4
  const CLICKING_FORWARD_TIME: real := 1.0
  const BACKING_UP_TIME: real := 1.0
  const TIME_TOWARDS_BALL: real := 2.75
  const TIME_FROM_BALL: real := 1.0
  /** How long `ScanningLeft` may slide before it gives up on a guess. */
  const SCAN_LEFT_TIME: real := 1.0
  /** How long `Moving` waits for the range sensor before it backs off. */
  const MOVING_TIMEOUT: real := 3.0
  /** Absolute time before which `Backing` must not drive backwards. */
  const BACKING_SAFE_TIME: real := 10.0

  datatype Turn = Right | Left

  datatype Color = Red | Blue

  datatype State =
    | Begin
    | RampUpShootStageOne
    | RampUpShootStageTwo
    | ShootingBalls
    | RampDownShootStageOne
    | RampDownShootStageTwo
    | DrivingTowardsBall
    | BackingFromBall
    | Turning
    | Start
    | Searching
    | Stopped
    | Moving_Beyond
    | Moving_Timed
    | Orienting
    | Orienting_Further
    | Orienting_Back
    | Moving
    | ScanningLeft
    | CenteringFromLeft
    | ScanningRight
    | CenteringFromRight
    | Picking
    | GoLeft
    | GoRight
    | Clicking
    | Backing
    | Done

  /** The powers last commanded to the four drive motors. */
  datatype Drive = Drive(frontRight: real, backRight: real, frontLeft: real, backLeft: real)

  /** All four wheels at power `p`: forward for `p > 0`, backward for `p < 0`. */
  function Uniform(p: real): Drive {
    Drive(p, p, p, p)
  }

  /** Pivot in place: left wheels at `p`, right wheels at `-p` (`p > 0` turns right). */
  function Pivot(p: real): Drive {
    Drive(-p, -p, p, p)
  }

  const MOTORS_FORWARD: Drive := Uniform(MOTOR_POWER)
  const MOTORS_BACKWARD: Drive := Uniform(-MOTOR_POWER)
  const MOTORS_FORWARD_SLOW: Drive := Uniform(SLOW_MOTOR_POWER)
  const MOTORS_BACKWARD_SLOW: Drive := Uniform(-SLOW_MOTOR_POWER)
  const MOTORS_STOPPED: Drive := Uniform(0.0)
  const TURN_RIGHT: Drive := Pivot(MOTOR_POWER)
  const TURN_LEFT: Drive := Pivot(-MOTOR_POWER)
  const TURN_RIGHT_SLOW: Drive := Pivot(SLOW_TURN_POWER)
  const TURN_LEFT_SLOW: Drive := Pivot(-SLOW_TURN_POWER)

  /** The construction-time parameters: turn side, target colour, start delay. */
  datatype Config = Config(turning: Turn, seekColor: Color, timeDelay: real)

  /**
   * What one tick sees: the host's elapsed time and the sensor values the
   * tick may read (bottom-sensor brightness, front-sensor red and blue,
   * optical range).
   */
  datatype Reading = Reading(time: real, bottomAlpha: int, red: nat, blue: nat, optical: int)

  /**
   * The controller's run-local state and the last value written to each
   * actuator: drive motors, the two flywheels, the slide's continuous-rotation
   * servo, the ball guard and the left servo.
   */
  datatype Machine = Machine(
    state: State,
    timeAtStart: real,
    timeToMove: real,
    timeToScan: real,
    leftGuess: Option<Color>,
    rightGuess: Option<Color>,
    drive: Drive,
    propRight: real,
    propLeft: real,
    slide: real,
    ballGuard: real,
    leftServo: real)
}
