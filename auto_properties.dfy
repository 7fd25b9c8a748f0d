/**
 * What the controller promises, proved of `Step` (one tick) and `Run`
 * (a sequence of ticks). Since `TrumanAutoMode.Loop` is proved equal to
 * `Step`, each fact holds of the op mode's fields tick after tick.
 */
module AutoProperties {
  import opened Wrappers
  import opened AutoTypes
  import opened ColorGuess
  import opened AutoStep

  // ---------------------------------------------------------------------
  // Running several ticks
  // ---------------------------------------------------------------------

  /** Running `a` and then `b` is running `a + b`. */
  lemma {:induction false} RunAppend(cfg: Config, m: Machine, a: seq<Reading>, b: seq<Reading>)
    ensures Run(cfg, m, a + b) == Run(cfg, Run(cfg, m, a), b)
    decreases |a|
  {
    if a == [] {
      assert a + b == b;
    } else {
      assert (a + b)[0] == a[0];
      assert (a + b)[1..] == a[1..] + b;
      RunAppend(cfg, Step(cfg, m, a[0]), a[1..], b);
    }
  }

  /** The last tick of a run is one more `Step`. */
  lemma RunSnoc(cfg: Config, m: Machine, rs: seq<Reading>, rd: Reading)
    ensures Run(cfg, m, rs + [rd]) == Step(cfg, Run(cfg, m, rs), rd)
  {
    RunAppend(cfg, m, rs, [rd]);
    assert [rd][1..] == [];
  }

  // ---------------------------------------------------------------------
  // changeState and the entry time
  // ---------------------------------------------------------------------

  /**
   * With a clock that never runs backwards, the entry time never decreases
   * and never runs ahead of the host's time.
   */
  lemma {:induction false} EntryTimeMonotonic(cfg: Config, m: Machine, rs: seq<Reading>)
    requires rs != []
    requires NonDecreasing(rs)
    requires m.timeAtStart <= rs[0].time
    ensures m.timeAtStart <= Run(cfg, m, rs).timeAtStart <= rs[|rs| - 1].time
    decreases |rs|
  {
    var m1 := Step(cfg, m, rs[0]);
    if |rs| > 1 {
      assert rs[0].time <= rs[1].time;
      EntryTimeMonotonic(cfg, m1, rs[1..]);
    }
  }

  // ---------------------------------------------------------------------
  // The run never goes back
  // ---------------------------------------------------------------------

  /** Along any run, `Rank` never decreases, and strictly increases once the state has changed. */
  lemma {:induction false} RunRankMonotonic(cfg: Config, m: Machine, rs: seq<Reading>)
    ensures Rank(Run(cfg, m, rs).state) >= Rank(m.state)
    ensures Run(cfg, m, rs).state != m.state ==> Rank(Run(cfg, m, rs).state) > Rank(m.state)
    decreases |rs|
  {
    if rs != [] {
      RunRankMonotonic(cfg, Step(cfg, m, rs[0]), rs[1..]);
    }
  }

  /** A state, once left, is never entered again, whatever the ticks that follow. */
  lemma NeverReentered(cfg: Config, m: Machine, a: seq<Reading>, b: seq<Reading>)
    requires Run(cfg, m, a).state != m.state
    ensures Run(cfg, m, a + b).state != m.state
  {
    RunAppend(cfg, m, a, b);
    RunRankMonotonic(cfg, m, a);
    RunRankMonotonic(cfg, Run(cfg, m, a), b);
  }

  /**
   * The guesses and the scan time are overwritten on every scanning tick,
   * but once the machine is past a scanning state they never change again.
   */
  lemma {:induction false} ScratchFrozenAfterScan(cfg: Config, m: Machine, rs: seq<Reading>)
    ensures Rank(m.state) > Rank(ScanningLeft) ==>
              Run(cfg, m, rs).leftGuess == m.leftGuess && Run(cfg, m, rs).timeToScan == m.timeToScan
    ensures Rank(m.state) > Rank(ScanningRight) ==> Run(cfg, m, rs).rightGuess == m.rightGuess
    decreases |rs|
  {
    if rs != [] {
      ScratchFrozenAfterScan(cfg, Step(cfg, m, rs[0]), rs[1..]);
    }
  }

  // ---------------------------------------------------------------------
  // Reachability from Begin
  // ---------------------------------------------------------------------

  /** The states a run started in `Begin` can be in. */
  predicate OnMainPath(s: State) {
    s in {Begin, Searching, Stopped, Moving_Beyond, Moving_Timed, Orienting, Moving,
          ScanningLeft, CenteringFromLeft, ScanningRight, CenteringFromRight, Picking,
          GoLeft, GoRight, Clicking, Backing, Done}
  }

  lemma StepStaysOnMainPath(cfg: Config, m: Machine, rd: Reading)
    requires OnMainPath(m.state)
    ensures OnMainPath(Step(cfg, m, rd).state)
  {
  }

  /**
   * From `Begin`, no run ever reaches the shooting stages, the ball-driving
   * states, `Start`, `Turning`, `Orienting_Further` or `Orienting_Back`.
   */
  lemma {:induction false} ReachableFromBegin(cfg: Config, m: Machine, rs: seq<Reading>)
    requires OnMainPath(m.state)
    ensures OnMainPath(Run(cfg, m, rs).state)
    ensures Run(cfg, m, rs).state !in {RampUpShootStageOne, RampUpShootStageTwo, ShootingBalls,
                                       RampDownShootStageOne, RampDownShootStageTwo,
                                       DrivingTowardsBall, BackingFromBall, Start, Turning,
                                       Orienting_Further, Orienting_Back}
    decreases |rs|
  {
    if rs != [] {
      StepStaysOnMainPath(cfg, m, rs[0]);
      ReachableFromBegin(cfg, Step(cfg, m, rs[0]), rs[1..]);
    }
  }

  /** `Orienting_Back` is entered from `Orienting_Further` and from nowhere else. */
  lemma OrientingBackOnlyFromFurther(cfg: Config, m: Machine, rd: Reading)
    requires m.state != Orienting_Back
    ensures Step(cfg, m, rd).state == Orienting_Back ==> m.state == Orienting_Further
  {
  }

  // ---------------------------------------------------------------------
  // The timed shooting stages
  // ---------------------------------------------------------------------

  /** How long each timed stage lasts. */
  function StageTime(s: State): real {
    if s == ShootingBalls then SHOOTING_TIME else RAMP_TIME
  }

  /** The fixed order of the shooting stages, ending in `Start`. */
  function NextStage(s: State): State
    requires IsShootingState(s)
  {
    match s
    case RampUpShootStageOne => RampUpShootStageTwo
    case RampUpShootStageTwo => ShootingBalls
    case ShootingBalls => RampDownShootStageOne
    case RampDownShootStageOne => RampDownShootStageTwo
    case RampDownShootStageTwo => Start
  }

  /** While its time lasts, a timed stage stays put and holds its flywheel power. */
  lemma {:induction false} TimedStageHolds(cfg: Config, m: Machine, rs: seq<Reading>)
    requires IsShootingState(m.state)
    requires forall i :: 0 <= i < |rs| ==> rs[i].time - m.timeAtStart < StageTime(m.state)
    ensures Run(cfg, m, rs).state == m.state
    ensures Run(cfg, m, rs).timeAtStart == m.timeAtStart
    ensures Run(cfg, m, rs).drive == m.drive
    ensures rs != [] ==> Run(cfg, m, rs).propRight == Run(cfg, m, rs).propLeft == StagePower(m.state)
    decreases |rs|
  {
    if rs != [] {
      var m1 := Step(cfg, m, rs[0]);
      assert m1.state == m.state && m1.timeAtStart == m.timeAtStart;
      TimedStageHolds(cfg, m1, rs[1..]);
      if |rs| > 1 {
        assert Run(cfg, m, rs) == Run(cfg, m1, rs[1..]);
      }
    }
  }

  /**
   * Once its time is up, a timed stage moves to the next one in the fixed
   * order; leaving `RampDownShootStageTwo` switches both flywheels off.
   */
  lemma TimedStageAdvances(cfg: Config, m: Machine, rd: Reading)
    requires IsShootingState(m.state)
    requires rd.time - m.timeAtStart >= StageTime(m.state)
    ensures Step(cfg, m, rd).state == NextStage(m.state)
    ensures Step(cfg, m, rd).timeAtStart == rd.time
    ensures m.state == RampDownShootStageTwo ==>
              Step(cfg, m, rd).propRight == Step(cfg, m, rd).propLeft == 0.0
  {
  }

  /** The shooting stage also opens the ball guard on each tick it lasts. */
  lemma ShootingOpensGuard(cfg: Config, m: Machine, rd: Reading)
    requires m.state == ShootingBalls
    requires rd.time - m.timeAtStart < SHOOTING_TIME
    ensures Step(cfg, m, rd).ballGuard == 0.0
  {
  }

  // ---------------------------------------------------------------------
  // Getting to the line
  // ---------------------------------------------------------------------

  /** Transition-table entry, restating a case of `LineTick`: `Begin` moves on to `Searching` on its first tick. */
  lemma BeginStartsSearching(cfg: Config, m: Machine, rd: Reading)
    requires m.state == Begin
    ensures Step(cfg, m, rd) == m.(state := Searching, timeAtStart := rd.time)
  {
  }

  /** `Start` waits for the absolute start delay, not for a time since entry. */
  lemma StartWaitsForDelay(cfg: Config, m: Machine, rd: Reading)
    requires m.state == Start
    ensures Step(cfg, m, rd).state == (if rd.time >= cfg.timeDelay then Turning else Start)
  {
  }

  /** The ball-driving states keep driving until their time is up, then stop and move on. */
  lemma BallDrivingStep(cfg: Config, m: Machine, rd: Reading)
    requires m.state in {DrivingTowardsBall, BackingFromBall}
    ensures var r := Step(cfg, m, rd);
      var limit := if m.state == DrivingTowardsBall then TIME_TOWARDS_BALL else TIME_FROM_BALL;
      if rd.time - m.timeAtStart >= limit then
        r.drive == MOTORS_STOPPED && r.state == (if m.state == DrivingTowardsBall then Start else Turning)
      else
        r.state == m.state &&
        r.drive == (if m.state == DrivingTowardsBall then MOTORS_BACKWARD else MOTORS_FORWARD)
  {
  }

  /** `Turning` pivots toward the turn side and leaves only once strictly more than 1.2 s have passed. */
  lemma TurningStep(cfg: Config, m: Machine, rd: Reading)
    requires m.state == Turning
    ensures Step(cfg, m, rd).drive == (if cfg.turning == Left then TURN_LEFT else TURN_RIGHT)
    ensures Step(cfg, m, rd).state == Searching <==> rd.time - m.timeAtStart > FIRST_TURING_TIME
    ensures Step(cfg, m, rd).state != Searching ==> Step(cfg, m, rd).state == Turning
    ensures rd.time - m.timeAtStart == FIRST_TURING_TIME ==> Step(cfg, m, rd).state == Turning
  {
  }

  // ---------------------------------------------------------------------
  // Line following
  // ---------------------------------------------------------------------

  /** `Searching` drives forward slowly and stays while the bottom sensor reads below 3. */
  lemma {:induction false} SearchingWaitsForLine(cfg: Config, m: Machine, rs: seq<Reading>)
    requires m.state == Searching
    requires forall i :: 0 <= i < |rs| ==> rs[i].bottomAlpha < COLOR_ON_WHITE_THRESHOLD
    ensures Run(cfg, m, rs).state == Searching
    ensures Run(cfg, m, rs).timeAtStart == m.timeAtStart
    ensures rs != [] ==> Run(cfg, m, rs).drive == MOTORS_FORWARD_SLOW
    decreases |rs|
  {
    if rs != [] {
      SearchingWaitsForLine(cfg, Step(cfg, m, rs[0]), rs[1..]);
    }
  }

  /** `Searching` moves to `Stopped` exactly on the first reading of at least 3, never earlier. */
  lemma SearchingStopsOnLine(cfg: Config, m: Machine, rs: seq<Reading>, rd: Reading)
    requires m.state == Searching
    requires forall i :: 0 <= i < |rs| ==> rs[i].bottomAlpha < COLOR_ON_WHITE_THRESHOLD
    ensures Run(cfg, m, rs + [rd]).state == (if rd.bottomAlpha >= COLOR_ON_WHITE_THRESHOLD then Stopped else Searching)
    ensures rd.bottomAlpha >= COLOR_ON_WHITE_THRESHOLD ==> Run(cfg, m, rs + [rd]).timeAtStart == rd.time
  {
    RunSnoc(cfg, m, rs, rd);
    SearchingWaitsForLine(cfg, m, rs);
  }

  /** Transition-table entry, restating a case of `LineTick`: `Stopped` holds the robot still for up to 1 s after entry, then moves on. */
  lemma StoppedStep(cfg: Config, m: Machine, rd: Reading)
    requires m.state == Stopped
    ensures rd.time - m.timeAtStart <= TIME_STOPPED ==>
              Step(cfg, m, rd) == m.(drive := MOTORS_STOPPED)
    ensures rd.time - m.timeAtStart > TIME_STOPPED ==>
              Step(cfg, m, rd) == m.(state := Moving_Beyond, timeAtStart := rd.time)
  {
  }

  /** `Moving_Beyond` leaves when the sensor is off the line, recording how long crossing took. */
  lemma MovingBeyondStep(cfg: Config, m: Machine, rd: Reading)
    requires m.state == Moving_Beyond
    ensures Step(cfg, m, rd).drive == MOTORS_FORWARD_SLOW
    ensures rd.bottomAlpha <= COLOR_OFF_WHITE_THRESHOLD ==>
              Step(cfg, m, rd).state == Moving_Timed &&
              Step(cfg, m, rd).timeToMove == rd.time - m.timeAtStart
    ensures rd.bottomAlpha > COLOR_OFF_WHITE_THRESHOLD ==>
              Step(cfg, m, rd).state == Moving_Beyond && Step(cfg, m, rd).timeToMove == m.timeToMove
  {
  }

  /** `Moving_Timed` leaves only once strictly more than the recorded crossing time has passed. */
  lemma MovingTimedStep(cfg: Config, m: Machine, rd: Reading)
    requires m.state == Moving_Timed
    ensures Step(cfg, m, rd).drive == MOTORS_FORWARD_SLOW
    ensures Step(cfg, m, rd).state == (if rd.time - m.timeAtStart > m.timeToMove then Orienting else Moving_Timed)
  {
  }

  /** `Orienting` pivots away from the turn side until the line is seen again, then stops. */
  lemma OrientingStep(cfg: Config, m: Machine, rd: Reading)
    requires m.state == Orienting
    ensures rd.bottomAlpha >= COLOR_ON_WHITE_THRESHOLD ==>
              Step(cfg, m, rd).state == Moving && Step(cfg, m, rd).drive == MOTORS_STOPPED
    ensures rd.bottomAlpha < COLOR_ON_WHITE_THRESHOLD ==>
              Step(cfg, m, rd).state == Orienting &&
              Step(cfg, m, rd).drive == (if cfg.turning == Left then TURN_RIGHT_SLOW else TURN_LEFT_SLOW)
  {
  }

  /** `Orienting_Further` records the time until the line is lost; `Orienting_Back` pivots back for half of it. */
  lemma OrientingFurtherAndBack(cfg: Config, m: Machine, rd: Reading)
    ensures m.state == Orienting_Further && rd.bottomAlpha <= COLOR_OFF_WHITE_THRESHOLD ==>
              Step(cfg, m, rd).state == Orienting_Back &&
              Step(cfg, m, rd).timeToMove == rd.time - m.timeAtStart
    ensures m.state == Orienting_Further && rd.bottomAlpha > COLOR_OFF_WHITE_THRESHOLD ==>
              Step(cfg, m, rd) == m
    ensures m.state == Orienting_Back && rd.time - m.timeAtStart > m.timeToMove / 2.0 ==>
              Step(cfg, m, rd).state == Moving && Step(cfg, m, rd).drive == MOTORS_STOPPED
    ensures m.state == Orienting_Back && rd.time - m.timeAtStart <= m.timeToMove / 2.0 ==>
              Step(cfg, m, rd).state == Orienting_Back &&
              Step(cfg, m, rd).drive == (if cfg.turning == Left then TURN_LEFT_SLOW else TURN_RIGHT_SLOW)
  {
  }

  /**
   * In `Moving` a range reading of at least 10 always leads to `ScanningLeft`,
   * however long the robot has been moving: the state change resets the entry
   * time before the timeout is tested. Otherwise `Backing` follows only after
   * strictly more than 3 s.
   */
  lemma MovingPrefersRange(cfg: Config, m: Machine, rd: Reading)
    requires m.state == Moving
    ensures Step(cfg, m, rd).drive == MOTORS_FORWARD_SLOW
    ensures rd.optical >= DISTANCE_MINIMUM ==> Step(cfg, m, rd).state == ScanningLeft
    ensures rd.optical < DISTANCE_MINIMUM ==>
              Step(cfg, m, rd).state == (if rd.time - m.timeAtStart > MOVING_TIMEOUT then Backing else Moving)
  {
  }

  // ---------------------------------------------------------------------
  // Scanning and picking
  // ---------------------------------------------------------------------

  /**
   * `ScanningLeft` stores this tick's guess, and stays (sliding left) only
   * while under 1 s has passed and the guess is unset; on leaving it records
   * how long it scanned.
   */
  lemma ScanningLeftStep(cfg: Config, m: Machine, rd: Reading)
    requires m.state == ScanningLeft
    ensures var r := Step(cfg, m, rd);
      && r.leftGuess == GuessFrontColor(rd.red, rd.blue)
      && (r.state == ScanningLeft <==> rd.time - m.timeAtStart < SCAN_LEFT_TIME && r.leftGuess == None)
      && (r.state == ScanningLeft ==> r.slide == SCAN_LEFT_SLIDE_POWER)
      && (r.state != ScanningLeft ==> r.state == CenteringFromLeft && r.timeToScan == rd.time - m.timeAtStart)
  {
  }

  /** Transition-table entry, restating a case of `ScanTick`: `CenteringFromLeft` slides right for as long as the left scan took. */
  lemma CenteringFromLeftStep(cfg: Config, m: Machine, rd: Reading)
    requires m.state == CenteringFromLeft
    ensures rd.time - m.timeAtStart < m.timeToScan ==>
              Step(cfg, m, rd) == m.(slide := SCAN_RIGHT_SLIDE_POWER)
    ensures rd.time - m.timeAtStart >= m.timeToScan ==>
              Step(cfg, m, rd) == m.(state := ScanningRight, timeAtStart := rd.time)
  {
  }

  /** `ScanningRight` stores this tick's guess and stays only while under the left scan's time and unset. */
  lemma ScanningRightStep(cfg: Config, m: Machine, rd: Reading)
    requires m.state == ScanningRight
    ensures var r := Step(cfg, m, rd);
      && r.rightGuess == GuessFrontColor(rd.red, rd.blue)
      && (r.state == ScanningRight <==> rd.time - m.timeAtStart < m.timeToScan && r.rightGuess == None)
      && (r.state == ScanningRight ==> r.slide == SCAN_RIGHT_SLIDE_POWER)
      && (r.state != ScanningRight ==> r.state == CenteringFromRight)
  {
  }

  /** `CenteringFromRight` lasts exactly one tick. */
  lemma CenteringFromRightStep(cfg: Config, m: Machine, rd: Reading)
    requires m.state == CenteringFromRight
    ensures Step(cfg, m, rd).state == Picking
    ensures Step(cfg, m, rd).slide == (if rd.time - m.timeAtStart < m.timeToScan then SCAN_RIGHT_SLIDE_POWER else m.slide)
  {
  }

  /**
   * `Picking` never stays: it goes left exactly when the left guess is the
   * sought colour, and right in every other case, both misses included.
   */
  lemma PickingChoosesSide(cfg: Config, m: Machine, rd: Reading)
    requires m.state == Picking
    ensures Step(cfg, m, rd).state in {GoLeft, GoRight}
    ensures Step(cfg, m, rd).state == GoLeft <==> m.leftGuess == Some(cfg.seekColor)
  {
  }

  /** Transition-table entry, restating a case of `FinishTick`: `GoLeft` and `GoRight` slide for 0.4 s, then move on to `Clicking`. */
  lemma GoSideStep(cfg: Config, m: Machine, rd: Reading)
    requires m.state in {GoLeft, GoRight}
    ensures rd.time - m.timeAtStart < CLICKER_SLIDE_TIME ==>
              Step(cfg, m, rd) == m.(slide := if m.state == GoLeft then -1.0 else 1.0)
    ensures rd.time - m.timeAtStart >= CLICKER_SLIDE_TIME ==>
              Step(cfg, m, rd) == m.(state := Clicking, timeAtStart := rd.time)
  {
  }

  /** Transition-table entry, restating a case of `FinishTick`: `Clicking` drives forward for 1 s, then moves on to `Backing`. */
  lemma ClickingStep(cfg: Config, m: Machine, rd: Reading)
    requires m.state == Clicking
    ensures rd.time - m.timeAtStart < CLICKING_FORWARD_TIME ==>
              Step(cfg, m, rd) == m.(drive := MOTORS_FORWARD)
    ensures rd.time - m.timeAtStart >= CLICKING_FORWARD_TIME ==>
              Step(cfg, m, rd) == m.(state := Backing, timeAtStart := rd.time)
  {
  }

  // ---------------------------------------------------------------------
  // Backing and Done
  // ---------------------------------------------------------------------

  /**
   * Before absolute time 10 s, `Backing` changes nothing at all, however long
   * it has been waiting: in particular it never commands backward power.
   */
  lemma {:induction false} BackingWaitsForSafeTime(cfg: Config, m: Machine, rs: seq<Reading>)
    requires m.state == Backing
    requires forall i :: 0 <= i < |rs| ==> rs[i].time < BACKING_SAFE_TIME
    ensures Run(cfg, m, rs) == m
    decreases |rs|
  {
    if rs != [] {
      BackingWaitsForSafeTime(cfg, Step(cfg, m, rs[0]), rs[1..]);
    }
  }

  /**
   * From 10 s on, `Backing` drives backward; its 1 s is measured from when
   * the state was entered, not from when the gate opened.
   */
  lemma BackingStep(cfg: Config, m: Machine, rd: Reading)
    requires m.state == Backing
    requires rd.time >= BACKING_SAFE_TIME
    ensures Step(cfg, m, rd).drive == MOTORS_BACKWARD
    ensures Step(cfg, m, rd).state == (if rd.time - m.timeAtStart >= BACKING_UP_TIME then Done else Backing)
  {
  }

  /** `Done` is absorbing, and every tick in it stops all four drive motors. */
  lemma {:induction false} DoneIsAbsorbing(cfg: Config, m: Machine, rs: seq<Reading>)
    requires m.state == Done
    requires rs != []
    ensures Run(cfg, m, rs) == m.(drive := MOTORS_STOPPED)
    ensures Run(cfg, m, rs).drive == Drive(0.0, 0.0, 0.0, 0.0)
    decreases |rs|
  {
    if |rs| > 1 {
      DoneIsAbsorbing(cfg, Step(cfg, m, rs[0]), rs[1..]);
    }
  }

  // ---------------------------------------------------------------------
  // Ticks that trigger no transition
  // ---------------------------------------------------------------------

  /**
   * Outside `Picking`, whether a tick leaves the state is decided by the
   * state, its timers and the tick's readings alone, never by an actuator
   * or a guess already stored.
   */
  lemma StayDependsOnTimers(cfg: Config, m: Machine, m': Machine, rd: Reading)
    requires m.state == m'.state && m.state != Picking
    requires m.timeAtStart == m'.timeAtStart
    requires m.timeToMove == m'.timeToMove && m.timeToScan == m'.timeToScan
    ensures Step(cfg, m, rd).state == Step(cfg, m', rd).state
  {
    if IsShootingState(m.state) {
      assert Step(cfg, m, rd) == ShootingTick(m, rd);
      assert Step(cfg, m', rd) == ShootingTick(m', rd);
    } else if IsApproachState(m.state) {
      assert Step(cfg, m, rd) == ApproachTick(cfg, m, rd);
      assert Step(cfg, m', rd) == ApproachTick(cfg, m', rd);
    } else if IsLineState(m.state) {
      assert Step(cfg, m, rd) == LineTick(cfg, m, rd);
      assert Step(cfg, m', rd) == LineTick(cfg, m', rd);
    } else if IsOrientState(m.state) {
      assert Step(cfg, m, rd) == OrientTick(cfg, m, rd);
      assert Step(cfg, m', rd) == OrientTick(cfg, m', rd);
    } else if IsScanState(m.state) {
      assert Step(cfg, m, rd) == ScanTick(cfg, m, rd);
      assert Step(cfg, m', rd) == ScanTick(cfg, m', rd);
    } else {
      assert Step(cfg, m, rd) == FinishTick(m, rd);
      assert Step(cfg, m', rd) == FinishTick(m', rd);
    }
  }

  /**
   * In any state, a run of ticks each of which would leave the machine in
   * its state on its own keeps it there: the state, its entry time and the
   * recorded times are those it started with.
   */
  lemma {:induction false} NoSpuriousTransitions(cfg: Config, m: Machine, rs: seq<Reading>)
    requires m.state != Picking
    requires forall i :: 0 <= i < |rs| ==> Step(cfg, m, rs[i]).state == m.state
    ensures Run(cfg, m, rs).state == m.state
    ensures Run(cfg, m, rs).timeAtStart == m.timeAtStart
    ensures Run(cfg, m, rs).timeToMove == m.timeToMove
    ensures Run(cfg, m, rs).timeToScan == m.timeToScan
    decreases |rs|
  {
    if rs != [] {
      var m1 := Step(cfg, m, rs[0]);
      var rest := rs[1..];
      forall i | 0 <= i < |rest|
        ensures Step(cfg, m1, rest[i]).state == m1.state
      {
        assert rest[i] == rs[i + 1];
        StayDependsOnTimers(cfg, m, m1, rest[i]);
      }
      NoSpuriousTransitions(cfg, m1, rest);
    }
  }

  // ---------------------------------------------------------------------
  // A whole run
  // ---------------------------------------------------------------------

  /** Dropping the ticks of a run one at a time. */
  lemma RunDrop(cfg: Config, m: Machine, rs: seq<Reading>, k: nat)
    requires k < |rs|
    ensures Run(cfg, m, rs[k..]) == Run(cfg, Step(cfg, m, rs[k]), rs[k + 1..])
  {
    assert rs[k..][0] == rs[k];
    assert rs[k..][1..] == rs[k + 1..];
  }

  /** The configuration of the default run: turn right, seek red, no start delay. */
  const SCENARIO := Config(Right, Red, 0.0)

  /** Begin to Moving: find the line, cross it, orient on it. */
  function LineTicks(): seq<Reading> {
    [
      Reading(0.0, 0, 0, 0, 0), // Begin -> Searching
      Reading(0.1, 0, 0, 0, 0), // still searching
      Reading(0.2, 3, 0, 0, 0), // on the line -> Stopped
      Reading(1.3, 3, 0, 0, 0), // after 1 s -> Moving_Beyond
      Reading(1.5, 1, 0, 0, 0), // off the line -> Moving_Timed, crossing took 0.2 s
      Reading(1.8, 0, 0, 0, 0), // after 0.2 s more -> Orienting
      Reading(1.9, 3, 0, 0, 0)  // back on the line -> Moving
    ]
  }

  /** Moving to CenteringFromLeft: reach the beacon and scan left (red). */
  function ScanLeftTicks(): seq<Reading> {
    [
      Reading(2.0, 3, 0, 0, 10),  // beacon in range -> ScanningLeft
      Reading(2.1, 0, 10, 1, 10)  // left side red -> CenteringFromLeft
    ]
  }

  /** CenteringFromLeft to Picking: re-centre and scan right (blue). */
  function ScanRightTicks(): seq<Reading> {
    [
      Reading(2.3, 0, 0, 0, 10),  // re-centred -> ScanningRight
      Reading(2.4, 0, 1, 10, 10), // right side blue -> CenteringFromRight
      Reading(2.5, 0, 0, 0, 10)   // -> Picking
    ]
  }

  /** Picking to Done: go left, click, wait for the safety gate, back off. */
  function FinishTicks(): seq<Reading> {
    [
      Reading(2.6, 0, 0, 0, 10), // red is on the left -> GoLeft
      Reading(3.0, 0, 0, 0, 10), // -> Clicking
      Reading(4.0, 0, 0, 0, 10), // -> Backing
      Reading(10.0, 0, 0, 0, 0), // gate open, 6 s since entry -> Done
      Reading(10.1, 0, 0, 0, 0)  // stays Done
    ]
  }

  function ScenarioTicks(): seq<Reading> {
    LineTicks() + ScanLeftTicks() + ScanRightTicks() + FinishTicks()
  }

  lemma ScenarioLine(m: Machine)
    requires m.state == Begin
    ensures Run(SCENARIO, m, LineTicks()).state == Moving
    ensures Run(SCENARIO, m, LineTicks()).timeAtStart == 1.9
  {
    var rs := LineTicks();
    var m0 := m;
    assert rs[0..] == rs;
    RunDrop(SCENARIO, m0, rs, 0);
    var m1 := Step(SCENARIO, m0, rs[0]);
    assert m1.state == Searching;
    RunDrop(SCENARIO, m1, rs, 1);
    var m2 := Step(SCENARIO, m1, rs[1]);
    assert m2.state == Searching;
    RunDrop(SCENARIO, m2, rs, 2);
    var m3 := Step(SCENARIO, m2, rs[2]);
    assert m3.state == Stopped;
    RunDrop(SCENARIO, m3, rs, 3);
    var m4 := Step(SCENARIO, m3, rs[3]);
    assert m4.state == Moving_Beyond;
    RunDrop(SCENARIO, m4, rs, 4);
    var m5 := Step(SCENARIO, m4, rs[4]);
    assert m5.state == Moving_Timed;
    RunDrop(SCENARIO, m5, rs, 5);
    var m6 := Step(SCENARIO, m5, rs[5]);
    assert m6.state == Orienting;
    RunDrop(SCENARIO, m6, rs, 6);
    var m7 := Step(SCENARIO, m6, rs[6]);
    assert m7.state == Moving;
    assert rs[7..] == [];
  }

  lemma ScenarioScanLeft(m: Machine)
    requires m.state == Moving && m.timeAtStart == 1.9
    ensures Run(SCENARIO, m, ScanLeftTicks()).state == CenteringFromLeft
    ensures Run(SCENARIO, m, ScanLeftTicks()).timeAtStart == 2.1
    ensures Run(SCENARIO, m, ScanLeftTicks()).timeToScan == 0.1
    ensures Run(SCENARIO, m, ScanLeftTicks()).leftGuess == Some(Red)
  {
    assert GuessFrontColor(10, 1) == Some(Red);
    var rs := ScanLeftTicks();
    var m0 := m;
    assert rs[0..] == rs;
    RunDrop(SCENARIO, m0, rs, 0);
    var m1 := Step(SCENARIO, m0, rs[0]);
    assert m1.state == ScanningLeft;
    RunDrop(SCENARIO, m1, rs, 1);
    var m2 := Step(SCENARIO, m1, rs[1]);
    assert m2.state == CenteringFromLeft;
    assert rs[2..] == [];
  }

  lemma ScenarioScanRight(m: Machine)
    requires m.state == CenteringFromLeft && m.timeAtStart == 2.1 && m.timeToScan == 0.1
    ensures Run(SCENARIO, m, ScanRightTicks()).state == Picking
    ensures Run(SCENARIO, m, ScanRightTicks()).leftGuess == m.leftGuess
    ensures Run(SCENARIO, m, ScanRightTicks()).rightGuess == Some(Blue)
  {
    assert GuessFrontColor(1, 10) == Some(Blue);
    var rs := ScanRightTicks();
    var m0 := m;
    assert rs[0..] == rs;
    RunDrop(SCENARIO, m0, rs, 0);
    var m1 := Step(SCENARIO, m0, rs[0]);
    assert m1.state == ScanningRight;
    RunDrop(SCENARIO, m1, rs, 1);
    var m2 := Step(SCENARIO, m1, rs[1]);
    assert m2.state == CenteringFromRight;
    RunDrop(SCENARIO, m2, rs, 2);
    var m3 := Step(SCENARIO, m2, rs[2]);
    assert m3.state == Picking;
    assert rs[3..] == [];
  }

  lemma ScenarioFinish(m: Machine)
    requires m.state == Picking && m.leftGuess == Some(Red)
    ensures Run(SCENARIO, m, FinishTicks()).state == Done
    ensures Run(SCENARIO, m, FinishTicks()).drive == MOTORS_STOPPED
    ensures Run(SCENARIO, m, FinishTicks()).leftGuess == m.leftGuess
    ensures Run(SCENARIO, m, FinishTicks()).rightGuess == m.rightGuess
  {
    var rs := FinishTicks();
    var m0 := m;
    assert rs[0..] == rs;
    RunDrop(SCENARIO, m0, rs, 0);
    var m1 := Step(SCENARIO, m0, rs[0]);
    assert m1.state == GoLeft;
    RunDrop(SCENARIO, m1, rs, 1);
    var m2 := Step(SCENARIO, m1, rs[1]);
    assert m2.state == Clicking;
    RunDrop(SCENARIO, m2, rs, 2);
    var m3 := Step(SCENARIO, m2, rs[2]);
    assert m3.state == Backing;
    RunDrop(SCENARIO, m3, rs, 3);
    var m4 := Step(SCENARIO, m3, rs[3]);
    assert m4.state == Done;
    RunDrop(SCENARIO, m4, rs, 4);
    var m5 := Step(SCENARIO, m4, rs[4]);
    assert m5.state == Done;
    assert rs[5..] == [];
  }

  /**
   * The default run, from `Begin` whatever the scratch values were: it ends
   * in `Done` with all drive motors stopped, having guessed red on the left
   * and blue on the right.
   */
  lemma ScenarioReachesDone(m: Machine)
    requires m.state == Begin
    ensures Run(SCENARIO, m, ScenarioTicks()).state == Done
    ensures Run(SCENARIO, m, ScenarioTicks()).drive == MOTORS_STOPPED
    ensures Run(SCENARIO, m, ScenarioTicks()).leftGuess == Some(Red)
    ensures Run(SCENARIO, m, ScenarioTicks()).rightGuess == Some(Blue)
  {
    var line, left, right := LineTicks(), ScanLeftTicks(), ScanRightTicks();
    var m1 := Run(SCENARIO, m, line);
    var m2 := Run(SCENARIO, m1, left);
    var m3 := Run(SCENARIO, m2, right);
    ScenarioLine(m);
    ScenarioScanLeft(m1);
    ScenarioScanRight(m2);
    ScenarioFinish(m3);
    RunAppend(SCENARIO, m, line, left);
    RunAppend(SCENARIO, m, line + left, right);
    RunAppend(SCENARIO, m, line + left + right, FinishTicks());
  }
}
