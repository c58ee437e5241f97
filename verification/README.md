# TimedAutonomous: step dispatcher and timed fire sequence

This project models the decision logic of `TimedAutonomous`, the autonomous
op-mode of an FTC robot. It has two parts.

- **The step dispatcher.** This is the body of `runOpMode` after the start
  signal. A loop runs while the op-mode is active and services the drive on
  every iteration. It counts its iterations in `pp`:
  - at `pp == 1` the robot follows `traj2`;
  - at `pp == 2` it runs the powershot fire sequence, then builds and follows
    a parking trajectory, then stops the shooter;
  - every other iteration only services the drive.

  The loop is written three times, once per detected ring-stack height. The
  three copies differ only in the parking target.
- **The timed fire sequence `shoot`.** This is a busy loop on a freshly reset
  clock. It runs while the clock reads at most 12 s (powershot) or 5 s
  (otherwise). Each iteration:
  - commands the shooter to the requested power;
  - in powershot mode, services the drive straight after that;
  - positions the kicker from fixed time windows;
  - in powershot mode, also issues fixed heading corrections, each followed
    by a drive update.

  After the loop, powershot mode builds a return trajectory and discards it.
  Both modes return the trajectory they were given.

Every hardware and drive call becomes an `Event` in a returned trace:
- shooter power;
- kicker position;
- drive update;
- turn;
- follow;
- build.

The clock of `shoot` is given as the sequence of readings its loop sees, one
per iteration. `opModeIsActive()` is given as the number of times it answers
true before it first answers false.

The files are:
- `events.dfy` (module `Trace`): poses, trajectories, heights, events, and
  `Only`, which filters a trace by device.
- `schedule.dfy` (module `FireSchedule`): the loop bodies of `shoot` as
  written, plus an independent statement of the schedule as tables of time
  windows. Lemmas prove that the two agree.
- `fire.dfy` (module `FireController`): the `shoot` loop as a method, and the
  specification function it is proved against.
- `sequencer.dfy` (module `Sequencer`): the `runOpMode` loop as a method, and
  the shape of a run.

Two details of the code that the model keeps as written:
- **Shared window boundaries.** At t = 3, 7 and 11 (powershot) and at 0.5,
  2.5 and 4.5 (otherwise), two kicker windows share a boundary. Each pair is
  an `if` / `else if` chain, so the first window wins and 0.3 is commanded.
- **Duration of the non-powershot sequence.** Its loop runs while the clock
  reads at most 5 s.

## Model

| member | source | states |
|---|---|---|
| `FireSchedule.Lookup` | TeamCode/src/main/java/org/firstinspires/ftc/teamcode/TimedAutonomous.java:218-222 | The command of a window table at t is None exactly when no window contains t. Otherwise it is the command of the first window that contains t, which is how an `if` / `else if` chain resolves two windows that share a boundary. |
| `FireSchedule.PowershotKickWindows` | TeamCode/src/main/java/org/firstinspires/ftc/teamcode/TimedAutonomous.java:218-245 | Powershot kicker schedule, each case as an if-and-only-if: 0.3 on [2,3], [6,7] and [10,11]; 0 on (3,4], (7,8] and (11,12]; no kicker command at any other t. At t = 3, 7 and 11 the command is 0.3. |
| `FireSchedule.SimpleKickWindows` | TeamCode/src/main/java/org/firstinspires/ftc/teamcode/TimedAutonomous.java:259-276 | Non-powershot kicker schedule, each case as an if-and-only-if: 0.3 on [0,0.5], [2,2.5] and [4,4.5]; 0 on (0.5,1], (2.5,3] and (4.5,5]; nothing otherwise. |
| `FireSchedule.TurnWindows` | TeamCode/src/main/java/org/firstinspires/ftc/teamcode/TimedAutonomous.java:213-239 | Heading corrections happen only in powershot mode: -5 degrees exactly on [0,1), +15 exactly on [4.5,5), +20 exactly on [8.5,9), none at any other t. |
| `FireSchedule.IterationMatchesTables` | TeamCode/src/main/java/org/firstinspires/ftc/teamcode/TimedAutonomous.java:209-276 | One iteration of the loop body, executed statement by statement, issues the following, in order: the shooter command (followed in powershot mode by a drive update); then the turn from the turn table followed by a drive update; then the kicker command from the kick table. No t falls in both a turn window and a kick window. |
| `FireSchedule.IterationByDevice` | TeamCode/src/main/java/org/firstinspires/ftc/teamcode/TimedAutonomous.java:209-276 | Sorted by device, one iteration issues exactly one shooter command (at the requested power), the kick table's kicker command, the turn table's correction, and no follow. |
| `FireSchedule.ScheduleWithinLoop` | TeamCode/src/main/java/org/firstinspires/ftc/teamcode/TimedAutonomous.java:209-257 | Any t at which the schedule issues a kicker or turn command lies in [0, 12] (powershot) or [0, 5] (otherwise), the range of readings the loop runs on. |
| `FireController.Samples` | TeamCode/src/main/java/org/firstinspires/ftc/teamcode/TimedAutonomous.java:209 | The readings the loop runs on form a prefix of the clock. Every one of them is at most the bound. The reading after them, if any, exceeds the bound. If the clock ever exceeds the bound, the loop ends. |
| `FireController.SamplesOfMonotone` | TeamCode/src/main/java/org/firstinspires/ftc/teamcode/TimedAutonomous.java:257 | On a clock that never runs backwards, a reading is one the loop runs on if and only if it is at most the bound. |
| `FireController.Shoot` | TeamCode/src/main/java/org/firstinspires/ftc/teamcode/TimedAutonomous.java:203-280 | `shoot` returns `endTraj` unchanged. Its trace is the iterations' commands for the readings before the first one above the bound, followed (in powershot mode only) by the build of the discarded return trajectory. |
| `FireController.IterationsShooter` | TeamCode/src/main/java/org/firstinspires/ftc/teamcode/TimedAutonomous.java:209-210 | Across the whole loop, the shooter is commanded once per iteration, always to the requested power, and no trajectory is followed. |
| `FireController.IterationsKicker` | TeamCode/src/main/java/org/firstinspires/ftc/teamcode/TimedAutonomous.java:218-245 | The loop's kicker commands are the kick table's commands for each reading, in order. |
| `FireController.IterationsTurns` | TeamCode/src/main/java/org/firstinspires/ftc/teamcode/TimedAutonomous.java:213-239 | The loop's heading corrections are the turn table's corrections for each reading, in order. |
| `FireController.NoTurnsWithoutPowershot` | TeamCode/src/main/java/org/firstinspires/ftc/teamcode/TimedAutonomous.java:255-277 | Outside powershot mode, the whole trace of a fire sequence contains no turn. |
| `FireController.FireTurnsServiced` | TeamCode/src/main/java/org/firstinspires/ftc/teamcode/TimedAutonomous.java:213-239 | In the whole trace of a fire sequence, every turn is immediately followed by a drive update. |
| `FireController.FireLeavesShooterRunning` | TeamCode/src/main/java/org/firstinspires/ftc/teamcode/TimedAutonomous.java:209-253 | A whole fire sequence commands the shooter once per iteration, always to the requested power, and never stops it. It follows no trajectory: the return trajectory is built but not followed. |
| `Sequencer.RunOpMode` | TeamCode/src/main/java/org/firstinspires/ftc/teamcode/TimedAutonomous.java:144-200 | The loop runs once per true answer of the active check, and `pp` ends equal to that count. The trace is the step commands of `pp` = 0, 1, ..., in order. |
| `Sequencer.RunShape` | TeamCode/src/main/java/org/firstinspires/ftc/teamcode/TimedAutonomous.java:145-161 | A run written out, for every number of iterations: a drive update every iteration; the follow of `traj2` in the second iteration; in the third, the whole fire sequence, then build, follow, and the shooter set to 0; only drive updates afterwards. |
| `Sequencer.ShooterOfRun` | TeamCode/src/main/java/org/firstinspires/ftc/teamcode/TimedAutonomous.java:150-158 | For any fire sequence, a run issues no shooter command before its third iteration. From then on its shooter commands are the fire sequence's, followed by exactly one stop. |
| `Sequencer.FollowsOfRun` | TeamCode/src/main/java/org/firstinspires/ftc/teamcode/TimedAutonomous.java:150-157 | For any fire sequence that follows nothing, a run follows nothing in its first iteration, then `traj2`, then the parking trajectory, and nothing else. |
| `Sequencer.ShooterStoppedOnceAfterFire` | TeamCode/src/main/java/org/firstinspires/ftc/teamcode/TimedAutonomous.java:150-158 | The shooter commands of a whole run: none in the first two iterations; then 0.76 once per fire iteration; then 0 exactly once, after `shoot` has returned. |
| `Sequencer.RunFollows` | TeamCode/src/main/java/org/firstinspires/ftc/teamcode/TimedAutonomous.java:150-157 | The trajectories a whole run follows: `traj2` from the second iteration on, and the height's parking trajectory from the third. Nothing is followed before the second iteration, and nothing else is ever followed. |
| `Sequencer.HeightOnlyChoosesParking` | TeamCode/src/main/java/org/firstinspires/ftc/teamcode/TimedAutonomous.java:144-200 | Runs for two heights agree position by position, except where one builds or follows its parking trajectory and the other does the same with its own. They are equal if and only if the third iteration has not run, or the heights are equal: the targets ONE (29,-20,0), FOUR (53,-44,0) and other (5,-44,0) are distinct, and all start from (-10,-11,20 degrees). |

## Left out

- Hardware construction and configuration (motor inversion, run modes, encoder resets, the voltage-scaled feedforward): device plumbing, with floating point.
- The camera, the vision pipeline and its height classification: a foreign asynchronous library. The height is an input.
- Trajectory geometry (splines, velocity and acceleration constraints): a trajectory is a token known by its start and end poses. The build of `traj2` and of the initial `traj3` before the loop is not modelled. `traj2` is an input, and the initial `traj3` is overwritten before use.
- `Math.toRadians`: angles are kept in the unit the code writes them in (`Degrees` or `Radians`).
- Telemetry, `System.out.println` and the `ElapsedTime` clock. The clock is a sequence of readings with one reading per iteration. The code reads the clock again at each comparison, and the model does not capture that:
  - the loop test is read before any of the body's readings, so a body can run on readings above the bound;
  - `drive.turn` blocks, so the comparisons after a turn in the same iteration read a clock that has moved on by the whole turn.
- FireSchedule.IterationMatchesTables: its clause that an iteration never issues both a turn and a kick holds only because the model takes one reading per iteration; with the code's repeated readings, a turn followed by a kick in the same iteration is possible.
- `flickerAction`, the mecanum drive helper, the intake motors, `timez` and the unused local `tt`: they are never used by the modelled logic.
- The real-time, blocking behaviour of `drive.turn`, `drive.followTrajectory` and the op-mode lifecycle. Each call is one event in the trace.
- `pp` is a Java `int` and is modelled as an unbounded `nat`. Wrap-around after 2^31 iterations is not modelled.
- FireController.Shoot: requires a clock reading above the bound. Without one, the code's loop never ends, and the model does not represent a non-terminating run.
- Sequencer.RunOpMode: requires a clock reading above the powershot bound when the third iteration runs, for the same reason as `Shoot`.
