# TrumanAutoMode in Dafny

A model of the autonomous op mode of an FTC competition robot
(`TrumanAutoMode.java`). The host calls `loop()` once per tick. Each tick
reads the host's elapsed `time` and a few sensors: the bottom colour
sensor's brightness (`alpha`), the front colour sensor's red and blue
channels, and the range sensor's optical distance. It then runs one case
of a 28-state machine and commands the drive motors, the two flywheels,
the slide servo and the ball guard. Moving to a new state goes through
`changeState`, which stamps `time_at_start` with the current time. All
timing inside a state is measured from that stamp.

The model has six modules:

- `AutoTypes` (`auto_types.dfy`): the `Turn`, `Color` and `State` enums,
  the tuning constants, the drive commands, the construction parameters
  (`Config`), one tick's inputs (`Reading`), and the controller's state as
  a value (`Machine`). `Machine` holds the scratch fields and the last power
  or position written to each actuator.
- `ColorGuess` (`color_guess.dfy`): `guessFrontColor`. The source divides
  one channel by the other in `float`, so the model spells out what that
  division gives: a finite ratio, +Infinity when the numerator is non-zero
  and the denominator is zero, or NaN when both are zero.
- `AutoStep` (`auto_step.dfy`): one tick of `loop()` as the function
  `Step`. It dispatches by phase, in the order of the source's switch, to
  `ShootingTick`, `ApproachTick`, `LineTick`, `OrientTick`, `ScanTick` and
  `FinishTick`. `Run` applies `Step` to a sequence of ticks.
- `TrumanAuto` (`truman_auto_mode.dfy`): the op mode as a class. Its fields
  are the source's fields, and it has `changeState`, `resetState`,
  `start()`, the `setMotors*`/`setTurn*` helpers and `loop()`. Each method
  is proved to change the fields exactly as described in terms of the
  `Machine` value `Snap()`. In particular, `Loop` is proved to give
  `Step(Cfg(), old(Snap()), reading)`.
- `AutoProperties` (`auto_properties.dfy`): the properties of each state's
  transition, proved about `Step` and `Run`. Because `Loop` equals `Step`,
  they hold of the object tick after tick.
- `Wrappers` (`wrappers.dfy`): `Option`, which stands for a nullable `Color`.

## Behaviour as coded

The model follows the code in these places, where a reader might expect
otherwise:

- The colour guesses are not write-once. `ScanningLeft` and `ScanningRight`
  reassign their guess on every tick. Because each state leaves as soon as
  its guess is set, a guess in fact never changes once its state is left
  (`ScratchFrozenAfterScan`).
- A zero channel is not "undecided". `guessFrontColor(5, 0)` is Red, since
  `5 / 0f` is +Infinity. Only `(0, 0)` gives no guess, since NaN compares
  false.
- In `Moving`, the range check can reset `time_at_start` before the timeout
  test runs, so a range reading of at least 10 always wins (`MovingPrefersRange`).
- `Turning` leaves only when strictly more than 1.2 s have passed.
- The `Backing` timer runs from when the state was entered, not from when
  the 10 s gate opened. A robot that entered `Backing` at 4 s goes to
  `Done` on its first tick at or after 10 s.
- `resetState` writes `time_at_start = 0` and then `changeState(Begin)`
  stamps it with the current time. So after a reset the entry time is the
  reset time, not 0.
- Motor powers persist between ticks. A state that commands nothing leaves
  the drive running at its last power. For example, the forward power from
  `Clicking` stays on while `Backing` waits for the 10 s gate.
- The states are acyclic. Every transition goes to a state of strictly
  higher `Rank` (`RunRankMonotonic`, `NeverReentered`).

## Model

| member | source | states |
|---|---|---|
| `ColorGuess.GuessFrontColor` | FtcRobotController/src/main/java/org/firstinspires/ftc/teamcode/TrumanAutoMode.java:523-533 | Red exactly when red > 2·blue, Blue exactly when blue > 2·red, no guess exactly when neither holds; zero channels included (float division gives +Infinity or NaN, never an error) |
| `ColorGuess.ExceedsTwoIsCrossMultiplied` | FtcRobotController/src/main/java/org/firstinspires/ftc/teamcode/TrumanAutoMode.java:524-530 | the float comparison `n / (float) d > 2` agrees with `n > 2·d` for all non-negative readings, including d = 0 |
| `ColorGuess.GuessFrontColorExamples` | FtcRobotController/src/main/java/org/firstinspires/ftc/teamcode/TrumanAutoMode.java:523-533 | (10,1) gives Red, (1,10) Blue, (5,5) none, (5,0) Red, (0,5) Blue, (0,0) none, (4,2) none |
| `AutoStep.Step` | FtcRobotController/src/main/java/org/firstinspires/ftc/teamcode/TrumanAutoMode.java:237-521 | one tick: the entry time is stamped with the tick's time exactly when the state changes; the state's rank never decreases and strictly increases on a change; each guess, the scan time and the crossing time are written only by the states that own them; `Done` is absorbing and only re-commands a stopped drive |
| `AutoStep.ShootingTick` | FtcRobotController/src/main/java/org/firstinspires/ftc/teamcode/TrumanAutoMode.java:246-293 | the facts of `Step` for the five flywheel stages |
| `AutoStep.ApproachTick` | FtcRobotController/src/main/java/org/firstinspires/ftc/teamcode/TrumanAutoMode.java:294-328 | the facts of `Step` for `DrivingTowardsBall`, `Start`, `BackingFromBall` and `Turning` |
| `AutoStep.LineTick` | FtcRobotController/src/main/java/org/firstinspires/ftc/teamcode/TrumanAutoMode.java:329-362 | the facts of `Step` for the line-finding states, and for `Begin` (lines 243-245) |
| `AutoStep.OrientTick` | FtcRobotController/src/main/java/org/firstinspires/ftc/teamcode/TrumanAutoMode.java:363-414 | the facts of `Step` for the orienting states and `Moving` |
| `AutoStep.ScanTick` | FtcRobotController/src/main/java/org/firstinspires/ftc/teamcode/TrumanAutoMode.java:415-470 | the facts of `Step` for the scanning, centering and picking states |
| `AutoStep.FinishTick` | FtcRobotController/src/main/java/org/firstinspires/ftc/teamcode/TrumanAutoMode.java:471-514 | the facts of `Step` for `GoLeft`, `GoRight`, `Clicking`, `Backing` and `Done`, and that `Done` only re-commands a stopped drive |
| `TrumanAuto.TrumanAutoMode.constructor` | FtcRobotController/src/main/java/org/firstinspires/ftc/teamcode/TrumanAutoMode.java:113-146 | configuration as given; after `init()` the guard is at 0.5, the motors are unpowered, and the state is `Begin` with every scratch value cleared and the entry time stamped |
| `TrumanAuto.TrumanAutoMode.Start` | FtcRobotController/src/main/java/org/firstinspires/ftc/teamcode/TrumanAutoMode.java:153-155 | starting the run is `resetState` |
| `TrumanAuto.TrumanAutoMode.ResetState` | FtcRobotController/src/main/java/org/firstinspires/ftc/teamcode/TrumanAutoMode.java:224-235 | state `Begin`, entry time = current time (after the 0 the source writes first), crossing and scan times 0, both guesses unset, slide and left servo 0; flywheels, drive and guard untouched |
| `TrumanAuto.TrumanAutoMode.ChangeState` | FtcRobotController/src/main/java/org/firstinspires/ftc/teamcode/TrumanAutoMode.java:157-160 | state becomes the new state, entry time becomes the current time, nothing else changes |
| `TrumanAuto.TrumanAutoMode.SetMotorsForward` | FtcRobotController/src/main/java/org/firstinspires/ftc/teamcode/TrumanAutoMode.java:162-167 | all four drive motors at 0.2, nothing else changes |
| `TrumanAuto.TrumanAutoMode.SetMotorsBackward` | FtcRobotController/src/main/java/org/firstinspires/ftc/teamcode/TrumanAutoMode.java:169-174 | all four drive motors at -0.2, nothing else changes |
| `TrumanAuto.TrumanAutoMode.SetMotorsForwardSlow` | FtcRobotController/src/main/java/org/firstinspires/ftc/teamcode/TrumanAutoMode.java:175-180 | all four drive motors at 0.1, nothing else changes |
| `TrumanAuto.TrumanAutoMode.SetMotorsBackwardSlow` | FtcRobotController/src/main/java/org/firstinspires/ftc/teamcode/TrumanAutoMode.java:182-187 | all four drive motors at -0.1, nothing else changes |
| `TrumanAuto.TrumanAutoMode.SetMotorsStopped` | FtcRobotController/src/main/java/org/firstinspires/ftc/teamcode/TrumanAutoMode.java:189-194 | all four drive motors at 0, nothing else changes |
| `TrumanAuto.TrumanAutoMode.SetTurnRight` | FtcRobotController/src/main/java/org/firstinspires/ftc/teamcode/TrumanAutoMode.java:196-201 | right motors at -0.2, left motors at 0.2, nothing else changes |
| `TrumanAuto.TrumanAutoMode.SetTurnLeft` | FtcRobotController/src/main/java/org/firstinspires/ftc/teamcode/TrumanAutoMode.java:203-208 | right motors at 0.2, left motors at -0.2, nothing else changes |
| `TrumanAuto.TrumanAutoMode.SetTurnRightSlow` | FtcRobotController/src/main/java/org/firstinspires/ftc/teamcode/TrumanAutoMode.java:210-215 | right motors at -0.2, left motors at 0.2 (the slow turn power), nothing else changes |
| `TrumanAuto.TrumanAutoMode.SetTurnLeftSlow` | FtcRobotController/src/main/java/org/firstinspires/ftc/teamcode/TrumanAutoMode.java:217-222 | right motors at 0.2, left motors at -0.2 (the slow turn power), nothing else changes |
| `TrumanAuto.TrumanAutoMode.Loop` | FtcRobotController/src/main/java/org/firstinspires/ftc/teamcode/TrumanAutoMode.java:237-521 | the object's fields after the tick are exactly `Step` of its fields before it, so every lemma below holds of the object |
| `TrumanAuto.TrumanAutoMode.ShootingLoop` | FtcRobotController/src/main/java/org/firstinspires/ftc/teamcode/TrumanAutoMode.java:246-293 | the flywheel-stage cases of `loop()` update the fields as `ShootingTick` |
| `TrumanAuto.TrumanAutoMode.ApproachLoop` | FtcRobotController/src/main/java/org/firstinspires/ftc/teamcode/TrumanAutoMode.java:294-328 | the ball-driving, start and turning cases update the fields as `ApproachTick` |
| `TrumanAuto.TrumanAutoMode.LineLoop` | FtcRobotController/src/main/java/org/firstinspires/ftc/teamcode/TrumanAutoMode.java:329-362 | the line-finding cases, and `Begin` (lines 243-245), update the fields as `LineTick` |
| `TrumanAuto.TrumanAutoMode.OrientLoop` | FtcRobotController/src/main/java/org/firstinspires/ftc/teamcode/TrumanAutoMode.java:363-414 | the orienting cases and `Moving` update the fields as `OrientTick` |
| `TrumanAuto.TrumanAutoMode.ScanLoop` | FtcRobotController/src/main/java/org/firstinspires/ftc/teamcode/TrumanAutoMode.java:415-470 | the scanning, centering and picking cases update the fields as `ScanTick` |
| `TrumanAuto.TrumanAutoMode.FinishLoop` | FtcRobotController/src/main/java/org/firstinspires/ftc/teamcode/TrumanAutoMode.java:471-514 | the clicking, backing and `Done` cases update the fields as `FinishTick` |
| `AutoProperties.EntryTimeMonotonic` | FtcRobotController/src/main/java/org/firstinspires/ftc/teamcode/TrumanAutoMode.java:157-160 | with a non-decreasing clock, over any run the entry time never decreases and never exceeds the latest tick's time |
| `AutoProperties.RunRankMonotonic` | FtcRobotController/src/main/java/org/firstinspires/ftc/teamcode/TrumanAutoMode.java:242-514 | over any run the rank never decreases, and is strictly higher once the state has changed |
| `AutoProperties.NeverReentered` | FtcRobotController/src/main/java/org/firstinspires/ftc/teamcode/TrumanAutoMode.java:242-514 | a state, once left, is never entered again, whatever ticks follow |
| `AutoProperties.ScratchFrozenAfterScan` | FtcRobotController/src/main/java/org/firstinspires/ftc/teamcode/TrumanAutoMode.java:415-448 | the guesses are overwritten on every scanning tick, but once the machine is past `ScanningLeft` (resp. `ScanningRight`) the left guess and scan time (resp. the right guess) never change again |
| `AutoProperties.StepStaysOnMainPath` | FtcRobotController/src/main/java/org/firstinspires/ftc/teamcode/TrumanAutoMode.java:242-514 | a tick from a state reachable from `Begin` leads to a state reachable from `Begin` |
| `AutoProperties.ReachableFromBegin` | FtcRobotController/src/main/java/org/firstinspires/ftc/teamcode/TrumanAutoMode.java:243-245 | from `Begin` no run reaches the shooting stages, `DrivingTowardsBall`, `BackingFromBall`, `Start`, `Turning`, `Orienting_Further` or `Orienting_Back` |
| `AutoProperties.OrientingBackOnlyFromFurther` | FtcRobotController/src/main/java/org/firstinspires/ftc/teamcode/TrumanAutoMode.java:375-398 | `Orienting_Back` is entered only from `Orienting_Further` |
| `AutoProperties.TimedStageHolds` | FtcRobotController/src/main/java/org/firstinspires/ftc/teamcode/TrumanAutoMode.java:246-293 | while `time - time_at_start` stays below 0.6 (2.0 in `ShootingBalls`), a flywheel stage keeps its state, entry time and drive, and holds its power (0.4, 0.7, 1.0, 0.5, 0.2) on both flywheels |
| `AutoProperties.TimedStageAdvances` | FtcRobotController/src/main/java/org/firstinspires/ftc/teamcode/TrumanAutoMode.java:246-293 | once that time is reached the stage moves on in the order RampUpOne, RampUpTwo, ShootingBalls, RampDownOne, RampDownTwo, Start, stamping the tick's time; leaving RampDownTwo sets both flywheels to 0 |
| `AutoProperties.ShootingOpensGuard` | FtcRobotController/src/main/java/org/firstinspires/ftc/teamcode/TrumanAutoMode.java:264-273 | each `ShootingBalls` tick inside its 2 s opens the ball guard (position 0) |
| `AutoProperties.BeginStartsSearching` | FtcRobotController/src/main/java/org/firstinspires/ftc/teamcode/TrumanAutoMode.java:243-245 | transition-table entry, restating the case for reference: `Begin` moves to `Searching` on its first tick and changes nothing else but the entry time |
| `AutoProperties.StartWaitsForDelay` | FtcRobotController/src/main/java/org/firstinspires/ftc/teamcode/TrumanAutoMode.java:302-308 | `Start` moves to `Turning` exactly when the absolute time has reached the start delay |
| `AutoProperties.BallDrivingStep` | FtcRobotController/src/main/java/org/firstinspires/ftc/teamcode/TrumanAutoMode.java:294-317 | the ball-driving states drive (backward, resp. forward) until 2.75 s (resp. 1 s) since entry, then stop the drive and move to `Start` (resp. `Turning`) |
| `AutoProperties.TurningStep` | FtcRobotController/src/main/java/org/firstinspires/ftc/teamcode/TrumanAutoMode.java:318-328 | `Turning` pivots toward the turn side and leaves for `Searching` exactly when strictly more than 1.2 s have passed; at exactly 1.2 s it stays |
| `AutoProperties.SearchingWaitsForLine` | FtcRobotController/src/main/java/org/firstinspires/ftc/teamcode/TrumanAutoMode.java:329-336 | over any run of readings below 3, `Searching` stays, keeps its entry time and drives slowly forward |
| `AutoProperties.SearchingStopsOnLine` | FtcRobotController/src/main/java/org/firstinspires/ftc/teamcode/TrumanAutoMode.java:329-336 | after readings below 3, `Searching` moves to `Stopped` exactly on the first reading of at least 3, stamping that tick's time |
| `AutoProperties.StoppedStep` | FtcRobotController/src/main/java/org/firstinspires/ftc/teamcode/TrumanAutoMode.java:337-346 | transition-table entry, restating the case for reference: `Stopped` stops the drive while at most 1 s has passed, and moves to `Moving_Beyond` once more has |
| `AutoProperties.MovingBeyondStep` | FtcRobotController/src/main/java/org/firstinspires/ftc/teamcode/TrumanAutoMode.java:347-354 | `Moving_Beyond` drives slowly; on a reading of at most 1 it records the elapsed time as the crossing time and moves to `Moving_Timed`, otherwise it stays with the crossing time unchanged |
| `AutoProperties.MovingTimedStep` | FtcRobotController/src/main/java/org/firstinspires/ftc/teamcode/TrumanAutoMode.java:355-362 | `Moving_Timed` drives slowly and moves to `Orienting` exactly when the elapsed time is strictly greater than the recorded crossing time |
| `AutoProperties.OrientingStep` | FtcRobotController/src/main/java/org/firstinspires/ftc/teamcode/TrumanAutoMode.java:363-374 | `Orienting` pivots away from the turn side until a reading of at least 3, then stops the drive and moves to `Moving` |
| `AutoProperties.OrientingFurtherAndBack` | FtcRobotController/src/main/java/org/firstinspires/ftc/teamcode/TrumanAutoMode.java:375-398 | `Orienting_Further` records the time until a reading of at most 1 and moves to `Orienting_Back`, else changes nothing; `Orienting_Back` pivots toward the turn side until more than half that time has passed, then stops and moves to `Moving` |
| `AutoProperties.MovingPrefersRange` | FtcRobotController/src/main/java/org/firstinspires/ftc/teamcode/TrumanAutoMode.java:399-414 | in `Moving` an optical range of at least 10 always leads to `ScanningLeft`, whatever the elapsed time; otherwise `Backing` follows exactly when more than 3 s have passed |
| `AutoProperties.ScanningLeftStep` | FtcRobotController/src/main/java/org/firstinspires/ftc/teamcode/TrumanAutoMode.java:415-428 | `ScanningLeft` stores this tick's guess; it stays (sliding at -1) exactly while under 1 s has passed and the guess is unset; on leaving it records the elapsed time as the scan time and moves to `CenteringFromLeft` |
| `AutoProperties.CenteringFromLeftStep` | FtcRobotController/src/main/java/org/firstinspires/ftc/teamcode/TrumanAutoMode.java:429-437 | transition-table entry, restating the case for reference: `CenteringFromLeft` slides right while under the scan time has passed, then moves to `ScanningRight` |
| `AutoProperties.ScanningRightStep` | FtcRobotController/src/main/java/org/firstinspires/ftc/teamcode/TrumanAutoMode.java:438-448 | `ScanningRight` stores this tick's guess; it stays (sliding at 1) exactly while under the scan time has passed and the guess is unset; otherwise it moves to `CenteringFromRight` |
| `AutoProperties.CenteringFromRightStep` | FtcRobotController/src/main/java/org/firstinspires/ftc/teamcode/TrumanAutoMode.java:449-456 | `CenteringFromRight` always moves to `Picking` after one tick, sliding right on it only if under the scan time has passed |
| `AutoProperties.PickingChoosesSide` | FtcRobotController/src/main/java/org/firstinspires/ftc/teamcode/TrumanAutoMode.java:457-470 | `Picking` never stays; it moves to `GoLeft` exactly when the left guess is the sought colour, and to `GoRight` in every other case, both misses included |
| `AutoProperties.GoSideStep` | FtcRobotController/src/main/java/org/firstinspires/ftc/teamcode/TrumanAutoMode.java:471-488 | transition-table entry, restating the case for reference: `GoLeft`/`GoRight` slide at -1/1 while under 0.4 s has passed, then move to `Clicking` |
| `AutoProperties.ClickingStep` | FtcRobotController/src/main/java/org/firstinspires/ftc/teamcode/TrumanAutoMode.java:489-497 | transition-table entry, restating the case for reference: `Clicking` drives forward while under 1 s has passed, then moves to `Backing` |
| `AutoProperties.BackingWaitsForSafeTime` | FtcRobotController/src/main/java/org/firstinspires/ftc/teamcode/TrumanAutoMode.java:498-509 | over any run of ticks before absolute time 10 s, `Backing` changes nothing: no drive power is commanded and the state and entry time stay |
| `AutoProperties.BackingStep` | FtcRobotController/src/main/java/org/firstinspires/ftc/teamcode/TrumanAutoMode.java:498-509 | from absolute time 10 s `Backing` drives backward, and moves to `Done` once 1 s has passed since the state was entered (not since the gate opened) |
| `AutoProperties.DoneIsAbsorbing` | FtcRobotController/src/main/java/org/firstinspires/ftc/teamcode/TrumanAutoMode.java:510-514 | over any non-empty run from `Done`, the state stays `Done`, all four drive powers are 0 and nothing else changes |
| `AutoProperties.StayDependsOnTimers` | FtcRobotController/src/main/java/org/firstinspires/ftc/teamcode/TrumanAutoMode.java:242-514 | outside `Picking`, whether a tick changes the state depends only on the state, its entry time, the two recorded times and the tick's readings, not on actuators or stored guesses |
| `AutoProperties.NoSpuriousTransitions` | FtcRobotController/src/main/java/org/firstinspires/ftc/teamcode/TrumanAutoMode.java:242-514 | in any state but `Picking`, a run of ticks each of which on its own would not leave the state keeps the state, its entry time and both recorded times |
| `AutoProperties.ScenarioReachesDone` | FtcRobotController/src/main/java/org/firstinspires/ftc/teamcode/TrumanAutoMode.java:237-521 | a default run (turn right, seek red, no delay) from `Begin` goes through line finding, orienting, both scans and picking to `Done` with the drive stopped, holding the guesses red (left) and blue (right) |

## Left out

- `init()`'s hardware-map lookups, I²C address setup and motor direction
  reversals are hardware plumbing. The constructor models only what
  `init()` does to the model's state: ball guard to 0.5, then
  `resetState`. It takes every motor's power to start at 0.
- `telemetry.addData` calls are not modelled. They are fire-and-forget
  output and have no effect on control.
- `range.updateCache()` and the `RangeSensor` class are not part of this
  model. The optical distance is an input of `Loop`. The ultrasonic
  distance is only shown in telemetry.
- The host's scheduling and its clock are not modelled. `time` is a
  parameter of every tick. Only `EntryTimeMonotonic` assumes a
  non-decreasing clock.
- `stop()` is not modelled because it is empty. The unused ramp motor,
  right servo and green channel are also left out.
- Floating point is not modelled. Time and power constants are the decimal
  values written in the source, as exact reals. In Java a `float` literal
  such as `.6f`, `.4f`, `1.2f`, `.2f` or `.1f` is not exactly that decimal
  (`.6f` widened to `double` is 0.6000000238…), so a tick within a float
  rounding step of a threshold can resolve differently: at an elapsed time
  of exactly 0.6 in a ramp stage, Java stays in the stage, while the model
  moves on (`TimedStageAdvances`).
- `ColorGuess.GuessFrontColor`: `guessFrontColor` reads `red()` and
  `blue()` twice each, once per ratio. The model takes one (red, blue)
  sample per tick, so a sensor value that changes between those reads is
  not modelled; the "exactly when red > 2·blue" contract assumes it does not.
- `ColorGuess.GuessFrontColor`: the quotient is exact rather than rounded
  to `float`. Rounding could only change the comparison with 2 for channel
  values above 2^23, far beyond a colour sensor's range. Readings are
  non-negative (`nat`). Negative channel values, which the sensor does not
  report, are not modelled.
- The source's `switch` also has a `default:` next to `Done`. It is
  unreachable, because every enum value has its own case.
- `Turning` tests `turning == Turn.Right` after `turning == Turn.Left`, so
  a `null` turn side would command no power. The model's `Turn` cannot be
  null, so the second test is an `else`.
- `Loop` is split into one method per phase (`ShootingLoop` …
  `FinishLoop`), and `Step` into one function per phase. This keeps each
  proof small. The cases and their order are the source's.
