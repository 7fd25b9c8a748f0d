/**
 * One tick of `loop()` as a function on values: from the configuration, the
 * machine before the tick and what the tick reads, the machine after it.
 * The class in module TrumanAuto is proved to update its fields exactly as
 * `Step` says; the properties of the controller are proved here and in
 * module AutoProperties about `Step` and about `Run`, its iteration.
 */
module AutoStep {
  import opened Wrappers
  import opened AutoTypes
  import opened ColorGuess

  /** `changeState`: enter `next`, stamping the entry time with the tick's time. */
  function ChangeState(m: Machine, next: State, time: real): Machine {
    m.(state := next, timeAtStart := time)
  }

  /** Time since the current state was entered. */
  function Elapsed(m: Machine, time: real): real {
    time - m.timeAtStart
  }

  function SetProps(m: Machine, p: real): Machine {
    m.(propRight := p, propLeft := p)
  }

  /**
   * Position of a state in the run's fixed order: every transition of the
   * machine goes from a state to one of strictly higher rank.
   */
  function Rank(s: State): nat {
    match s
    case RampUpShootStageOne => 0
    case RampUpShootStageTwo => 1
    case ShootingBalls => 2
    case RampDownShootStageOne => 3
    case RampDownShootStageTwo => 4
    case DrivingTowardsBall => 4
    case Start => 5
    case BackingFromBall => 5
    case Turning => 6
    case Begin => 6
    case Searching => 7
    case Stopped => 8
    case Moving_Beyond => 9
    case Moving_Timed => 10
    case Orienting_Further => 10
    case Orienting => 11
    case Orienting_Back => 11
    case Moving => 12
    case ScanningLeft => 13
    case CenteringFromLeft => 14
    case ScanningRight => 15
    case CenteringFromRight => 16
    case Picking => 17
    case GoLeft => 18
    case GoRight => 18
    case Clicking => 19
    case Backing => 20
    case Done => 21
  }

  /** The flywheel power a timed shooting stage holds while its time lasts. */
  function StagePower(s: State): real
    requires IsShootingState(s)
  {
    match s
    case RampUpShootStageOne => 0.4
    case RampUpShootStageTwo => 0.7
    case ShootingBalls => 1.0
    case RampDownShootStageOne => 0.5
    case RampDownShootStageTwo => 0.2
  }

  /**
   * What every tick guarantees, whatever the state: the entry time is
   * stamped exactly on a transition; transitions strictly increase `Rank`;
   * each scratch value is written only by the state that owns it, and the
   * two recorded times only on leaving it; the left servo is never written.
   */
  predicate TickFacts(m: Machine, r: Machine, time: real) {
    && r.timeAtStart == (if r.state != m.state then time else m.timeAtStart)
    && Rank(r.state) >= Rank(m.state)
    && (r.state != m.state ==> Rank(r.state) > Rank(m.state))
    && (r.leftGuess != m.leftGuess ==> m.state == ScanningLeft)
    && (r.rightGuess != m.rightGuess ==> m.state == ScanningRight)
    && (r.timeToScan != m.timeToScan ==> m.state == ScanningLeft)
    && (r.timeToMove != m.timeToMove ==> m.state in {Moving_Beyond, Orienting_Further})
    && (r.state == m.state ==> r.timeToMove == m.timeToMove && r.timeToScan == m.timeToScan)
    && r.leftServo == m.leftServo
  }

  predicate IsShootingState(s: State) {
    s in {RampUpShootStageOne, RampUpShootStageTwo, ShootingBalls,
          RampDownShootStageOne, RampDownShootStageTwo}
  }

  predicate IsApproachState(s: State) {
    s in {DrivingTowardsBall, Start, BackingFromBall, Turning}
  }

  predicate IsLineState(s: State) {
    s in {Begin, Searching, Stopped, Moving_Beyond, Moving_Timed}
  }

  predicate IsOrientState(s: State) {
    s in {Orienting, Orienting_Further, Orienting_Back, Moving}
  }

  predicate IsScanState(s: State) {
    s in {ScanningLeft, CenteringFromLeft, ScanningRight, CenteringFromRight, Picking}
  }

  predicate IsFinishState(s: State) {
    s in {GoLeft, GoRight, Clicking, Backing, Done}
  }

  /** The flywheel ramp: four timed power stages around the shooting stage. */
  function ShootingTick(m: Machine, rd: Reading): (r: Machine)
    requires IsShootingState(m.state)
    ensures TickFacts(m, r, rd.time)
  {
    var t := rd.time;
    var el := Elapsed(m, t);
    match m.state
    case RampUpShootStageOne =>
      if el < RAMP_TIME then SetProps(m, 0.4)
      else ChangeState(m, RampUpShootStageTwo, t)
    case RampUpShootStageTwo =>
      if el < RAMP_TIME then SetProps(m, 0.7)
      else ChangeState(m, ShootingBalls, t)
    case ShootingBalls =>
      if el < SHOOTING_TIME then SetProps(m, 1.0).(ballGuard := 0.0)
      else ChangeState(m, RampDownShootStageOne, t)
    case RampDownShootStageOne =>
      if el < RAMP_TIME then SetProps(m, 0.5)
      else ChangeState(m, RampDownShootStageTwo, t)
    case RampDownShootStageTwo =>
      if el < RAMP_TIME then SetProps(m, 0.2)
      else ChangeState(SetProps(m, 0.0), Start, t)
  }

  /** Driving to and from the ball, the start-delay gate and the first turn. */
  function ApproachTick(cfg: Config, m: Machine, rd: Reading): (r: Machine)
    requires IsApproachState(m.state)
    ensures TickFacts(m, r, rd.time)
  {
    var t := rd.time;
    var el := Elapsed(m, t);
    match m.state
    case DrivingTowardsBall =>
      if el >= TIME_TOWARDS_BALL then ChangeState(m.(drive := MOTORS_STOPPED), Start, t)
      else m.(drive := MOTORS_BACKWARD)
    case Start =>
      if t >= cfg.timeDelay then ChangeState(m, Turning, t) else m
    case BackingFromBall =>
      if el >= TIME_FROM_BALL then ChangeState(m.(drive := MOTORS_STOPPED), Turning, t)
      else m.(drive := MOTORS_FORWARD)
    case Turning =>
      var m1 := m.(drive := if cfg.turning == Left then TURN_LEFT else TURN_RIGHT);
      if el > FIRST_TURING_TIME then ChangeState(m1, Searching, t) else m1
  }

  /** Finding the white line and crossing it. */
  function LineTick(cfg: Config, m: Machine, rd: Reading): (r: Machine)
    requires IsLineState(m.state)
    ensures TickFacts(m, r, rd.time)
  {
    var t := rd.time;
    var el := Elapsed(m, t);
    match m.state
    case Begin =>
      ChangeState(m, Searching, t)
    case Searching =>
      var m1 := m.(drive := MOTORS_FORWARD_SLOW);
      if rd.bottomAlpha >= COLOR_ON_WHITE_THRESHOLD then ChangeState(m1, Stopped, t) else m1
    case Stopped =>
      if el <= TIME_STOPPED then m.(drive := MOTORS_STOPPED)
      else ChangeState(m, Moving_Beyond, t)
    case Moving_Beyond =>
      var m1 := m.(drive := MOTORS_FORWARD_SLOW);
      if rd.bottomAlpha <= COLOR_OFF_WHITE_THRESHOLD then
        ChangeState(m1.(timeToMove := el), Moving_Timed, t)
      else m1
    case Moving_Timed =>
      var m1 := m.(drive := MOTORS_FORWARD_SLOW);
      if el > m.timeToMove then ChangeState(m1, Orienting, t) else m1
  }

  /** Orienting on the line and closing in on the beacon. */
  function OrientTick(cfg: Config, m: Machine, rd: Reading): (r: Machine)
    requires IsOrientState(m.state)
    ensures TickFacts(m, r, rd.time)
  {
    var t := rd.time;
    var el := Elapsed(m, t);
    match m.state
    case Orienting =>
      var m1 := m.(drive := if cfg.turning == Left then TURN_RIGHT_SLOW else TURN_LEFT_SLOW);
      if rd.bottomAlpha >= COLOR_ON_WHITE_THRESHOLD then
        ChangeState(m1.(drive := MOTORS_STOPPED), Moving, t)
      else m1
    case Orienting_Further =>
      if rd.bottomAlpha <= COLOR_OFF_WHITE_THRESHOLD then
        ChangeState(m.(timeToMove := el), Orienting_Back, t)
      else m
    case Orienting_Back =>
      var m1 := m.(drive := if cfg.turning == Left then TURN_LEFT_SLOW else TURN_RIGHT_SLOW);
      if el > m.timeToMove / 2.0 then ChangeState(m1, Moving, t).(drive := MOTORS_STOPPED)
      else m1
    case Moving =>
      // Two independent ifs, as in the source: the second one reads the
      // entry time the first one may just have reset.
      var m1 := m.(drive := MOTORS_FORWARD_SLOW);
      var m2 := if rd.optical >= DISTANCE_MINIMUM then ChangeState(m1, ScanningLeft, t) else m1;
      if Elapsed(m2, t) > MOVING_TIMEOUT then ChangeState(m2, Backing, t) else m2
  }

  /** Sliding left and right over the beacon, guessing each side's colour, and picking a side. */
  function ScanTick(cfg: Config, m: Machine, rd: Reading): (r: Machine)
    requires IsScanState(m.state)
    ensures TickFacts(m, r, rd.time)
  {
    var t := rd.time;
    var el := Elapsed(m, t);
    match m.state
    case ScanningLeft =>
      var m1 := m.(leftGuess := GuessFrontColor(rd.red, rd.blue));
      if el < SCAN_LEFT_TIME && m1.leftGuess == None then m1.(slide := SCAN_LEFT_SLIDE_POWER)
      else ChangeState(m1.(timeToScan := el), CenteringFromLeft, t)
    case CenteringFromLeft =>
      if el < m.timeToScan then m.(slide := SCAN_RIGHT_SLIDE_POWER)
      else ChangeState(m, ScanningRight, t)
    case ScanningRight =>
      var m1 := m.(rightGuess := GuessFrontColor(rd.red, rd.blue));
      if el < m.timeToScan && m1.rightGuess == None then m1.(slide := SCAN_RIGHT_SLIDE_POWER)
      else ChangeState(m1, CenteringFromRight, t)
    case CenteringFromRight =>
      var m1 := if el < m.timeToScan then m.(slide := SCAN_RIGHT_SLIDE_POWER) else m;
      ChangeState(m1, Picking, t)
    case Picking =>
      if m.leftGuess == Some(cfg.seekColor) then ChangeState(m, GoLeft, t)
      else if m.rightGuess == Some(cfg.seekColor) then ChangeState(m, GoRight, t)
      else ChangeState(m, GoRight, t)
  }

  /** Pressing the beacon button, backing off after the safety gate, and stopping for good. */
  function FinishTick(m: Machine, rd: Reading): (r: Machine)
    requires IsFinishState(m.state)
    ensures TickFacts(m, r, rd.time)
    ensures m.state == Done ==> r == m.(drive := MOTORS_STOPPED)
  {
    var t := rd.time;
    var el := Elapsed(m, t);
    match m.state
    case GoLeft =>
      if el < CLICKER_SLIDE_TIME then m.(slide := -1.0)
      else ChangeState(m, Clicking, t)
    case GoRight =>
      if el < CLICKER_SLIDE_TIME then m.(slide := 1.0)
      else ChangeState(m, Clicking, t)
    case Clicking =>
      if el < CLICKING_FORWARD_TIME then m.(drive := MOTORS_FORWARD)
      else ChangeState(m, Backing, t)
    case Backing =>
      if t < BACKING_SAFE_TIME then m
      else
        var m1 := m.(drive := MOTORS_BACKWARD);
        if el >= BACKING_UP_TIME then ChangeState(m1, Done, t) else m1
    case Done =>
      m.(drive := MOTORS_STOPPED)
  }

  /** One execution of `loop()`; telemetry and the range-sensor refresh are left out. */
  function Step(cfg: Config, m: Machine, rd: Reading): (r: Machine)
    // Every transition stamps the tick's time; staying keeps the old stamp.
    ensures r.timeAtStart == if r.state != m.state then rd.time else m.timeAtStart
    // The run only moves forward: a state once left is never re-entered.
    ensures Rank(r.state) >= Rank(m.state)
    ensures r.state != m.state ==> Rank(r.state) > Rank(m.state)
    // Each scratch value is written only by the state that owns it.
    ensures r.leftGuess != m.leftGuess ==> m.state == ScanningLeft
    ensures r.rightGuess != m.rightGuess ==> m.state == ScanningRight
    ensures r.timeToScan != m.timeToScan ==> m.state == ScanningLeft
    ensures r.timeToMove != m.timeToMove ==> m.state in {Moving_Beyond, Orienting_Further}
    // A tick that stays in its state leaves the recorded times alone.
    ensures r.state == m.state ==> r.timeToMove == m.timeToMove && r.timeToScan == m.timeToScan
    // The left servo is written only by `resetState`, never by a tick.
    ensures r.leftServo == m.leftServo
    // `Done` is absorbing and keeps commanding the drive to stop.
    ensures m.state == Done ==> r == m.(drive := MOTORS_STOPPED)
  {
    match m.state
    case RampUpShootStageOne | RampUpShootStageTwo | ShootingBalls
       | RampDownShootStageOne | RampDownShootStageTwo =>
      ShootingTick(m, rd)
    case DrivingTowardsBall | Start | BackingFromBall | Turning =>
      ApproachTick(cfg, m, rd)
    case Begin | Searching | Stopped | Moving_Beyond | Moving_Timed =>
      LineTick(cfg, m, rd)
    case Orienting | Orienting_Further | Orienting_Back | Moving =>
      OrientTick(cfg, m, rd)
    case ScanningLeft | CenteringFromLeft | ScanningRight | CenteringFromRight | Picking =>
      ScanTick(cfg, m, rd)
    case GoLeft | GoRight | Clicking | Backing | Done =>
      FinishTick(m, rd)
  }

  /** The machine after the ticks `rs`, in order. */
  function Run(cfg: Config, m: Machine, rs: seq<Reading>): Machine
    decreases |rs|
  {
    if rs == [] then m else Run(cfg, Step(cfg, m, rs[0]), rs[1..])
  }

  /** The host's clock never runs backwards across the ticks `rs`. */
  predicate NonDecreasing(rs: seq<Reading>) {
    forall i, j :: 0 <= i <= j < |rs| ==> rs[i].time <= rs[j].time
  }
}
