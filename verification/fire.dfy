/**
 * TimedAutonomous.shoot: the blocking fire sequence. A fresh clock is reset
 * at the start; the loop runs while the clock reads at most 12 s (powershot)
 * or 5 s (otherwise), and each iteration issues the commands of
 * FireSchedule.IterationEvents for the current reading.
 *
 * The clock is given as the sequence of readings the loop sees, one per
 * iteration. Nothing but the clock ends the loop: the op-mode's "active"
 * signal is not consulted.
 */
module FireController {
  import opened Trace
  import opened FireSchedule

  /** The clock eventually reads more than bound. */
  predicate Crosses(clock: seq<real>, bound: real)
  {
    exists k :: 0 <= k < |clock| && clock[k] > bound
  }

  predicate Monotone(clock: seq<real>)
  {
    forall i, j :: 0 <= i <= j < |clock| ==> clock[i] <= clock[j]
  }

  /**
   * The readings the loop runs on: the longest prefix of clock that stays
   * at or below bound. The reading after it, if any, exceeds bound.
   */
  function Samples(clock: seq<real>, bound: real): (s: seq<real>)
    ensures |s| <= |clock| && s == clock[..|s|]
    ensures forall i :: 0 <= i < |s| ==> s[i] <= bound
    ensures |s| < |clock| ==> clock[|s|] > bound
    ensures Crosses(clock, bound) ==> |s| < |clock|
  {
    if clock == [] || clock[0] > bound then []
    else [clock[0]] + Samples(clock[1..], bound)
  }

  /** On a clock that never runs backwards, the loop sees exactly the readings at or below bound. */
  lemma SamplesOfMonotone(clock: seq<real>, bound: real)
    requires Monotone(clock)
    ensures forall j :: 0 <= j < |clock| ==> (clock[j] <= bound <==> j < |Samples(clock, bound)|)
  {
    var n := |Samples(clock, bound)|;
    forall j | 0 <= j < |clock|
      ensures clock[j] <= bound <==> j < n
    {
      if n <= j {
        assert clock[n] <= clock[j];
      }
    }
  }

  /** The loop sees readings 0 .. i-1 when reading i is the first to exceed bound. */
  lemma SamplesEndAt(clock: seq<real>, bound: real, i: nat)
    requires i < |clock| && clock[i] > bound
    requires forall j :: 0 <= j < i ==> clock[j] <= bound
    ensures Samples(clock, bound) == clock[..i]
  {
  }

  /** The commands of the loop iterations run on the readings samples, in order. */
  function IterationsTrace(samples: seq<real>, powershot: bool, power: real): seq<Event>
  {
    if samples == [] then []
    else
      IterationsTrace(samples[..|samples| - 1], powershot, power)
      + IterationEvents(samples[|samples| - 1], powershot, power)
  }

  /** The trajectory the powershot branch builds after its loop and then discards. */
  function ReturnTrajectory(endTraj: Trajectory): Trajectory
  {
    Trajectory(endTraj.end, Pose(-10.0, -11.0, Radians(-0.523598)))
  }

  /** Everything one call of shoot issues, when its loop runs on the readings samples. */
  function FireTrace(samples: seq<real>, powershot: bool, power: real, endTraj: Trajectory): seq<Event>
  {
    IterationsTrace(samples, powershot, power)
    + (if powershot then [Build(ReturnTrajectory(endTraj))] else [])
  }

  /**
   * shoot(power, shooter, kicker, powershot, drive, endTraj): runs the fire
   * loop until the clock exceeds its bound and returns endTraj unchanged.
   */
  method Shoot(power: real, powershot: bool, endTraj: Trajectory, clock: seq<real>)
    returns (trace: seq<Event>, result: Trajectory)
    requires Crosses(clock, LoopBound(powershot))
    ensures result == endTraj
    ensures trace == FireTrace(Samples(clock, LoopBound(powershot)), powershot, power, endTraj)
  {
    var bound := if powershot then 12.0 else 5.0;
    var i := 0;
    trace := [];
    while clock[i] <= bound
      invariant 0 <= i < |clock|
      invariant forall j :: 0 <= j < i ==> clock[j] <= bound
      invariant exists k :: i <= k < |clock| && clock[k] > bound
      invariant trace == IterationsTrace(clock[..i], powershot, power)
      decreases |clock| - i
    {
      assert clock[..i + 1][..i] == clock[..i] && clock[..i + 1][i] == clock[i];
      trace := trace + IterationEvents(clock[i], powershot, power);
      i := i + 1;
    }
    SamplesEndAt(clock, bound, i);
    if powershot {
      trace := trace + [Build(ReturnTrajectory(endTraj))];
    }
    result := endTraj;
  }

  // ---------------------------------------------------------------------
  // What a fire sequence commands.
  // ---------------------------------------------------------------------

  /** The kicker commands of the kick table for each reading, in order. */
  function KickSchedule(samples: seq<real>, powershot: bool): seq<Event>
  {
    if samples == [] then []
    else
      KickSchedule(samples[..|samples| - 1], powershot)
      + KickEvents(KickCommand(samples[|samples| - 1], powershot))
  }

  /** The heading corrections of the turn table for each reading, in order. */
  function TurnSchedule(samples: seq<real>, powershot: bool): seq<Event>
  {
    if samples == [] then []
    else
      TurnSchedule(samples[..|samples| - 1], powershot)
      + TurnMarks(TurnCommand(samples[|samples| - 1], powershot))
  }

  /**
   * The loop commands the shooter once per iteration, always to the same
   * power, and follows no trajectory.
   */
  lemma {:induction false} IterationsShooter(samples: seq<real>, powershot: bool, power: real)
    ensures Only(IterationsTrace(samples, powershot, power), ShooterKind)
      == Repeat(ShooterSet(power), |samples|)
    ensures Only(IterationsTrace(samples, powershot, power), FollowKind) == []
  {
    if samples != [] {
      var init := samples[..|samples| - 1];
      var t := samples[|samples| - 1];
      var before := IterationsTrace(init, powershot, power);
      var body := IterationEvents(t, powershot, power);
      IterationsShooter(init, powershot, power);
      IterationShooter(t, powershot, power);
      OnlyAppend(before, body, ShooterKind);
      OnlyAppend(before, body, FollowKind);
    }
  }

  /** The loop's kicker commands follow the kick table reading by reading. */
  lemma {:induction false} IterationsKicker(samples: seq<real>, powershot: bool, power: real)
    ensures Only(IterationsTrace(samples, powershot, power), KickerKind) == KickSchedule(samples, powershot)
  {
    if samples != [] {
      var init := samples[..|samples| - 1];
      var t := samples[|samples| - 1];
      IterationsKicker(init, powershot, power);
      IterationKicker(t, powershot, power);
      OnlyAppend(IterationsTrace(init, powershot, power), IterationEvents(t, powershot, power), KickerKind);
    }
  }

  /** The loop's heading corrections follow the turn table reading by reading. */
  lemma {:induction false} IterationsTurns(samples: seq<real>, powershot: bool, power: real)
    ensures Only(IterationsTrace(samples, powershot, power), TurnKind) == TurnSchedule(samples, powershot)
  {
    if samples != [] {
      var init := samples[..|samples| - 1];
      var t := samples[|samples| - 1];
      IterationsTurns(init, powershot, power);
      IterationTurns(t, powershot, power);
      OnlyAppend(IterationsTrace(init, powershot, power), IterationEvents(t, powershot, power), TurnKind);
    }
  }

  /** Outside powershot mode a fire sequence issues no heading correction. */
  lemma NoTurnsWithoutPowershot(samples: seq<real>, power: real, endTraj: Trajectory)
    ensures Only(FireTrace(samples, false, power, endTraj), TurnKind) == []
  {
    IterationsTurns(samples, false, power);
    NoTurnSchedule(samples);
    assert FireTrace(samples, false, power, endTraj) == IterationsTrace(samples, false, power);
  }

  lemma {:induction false} NoTurnSchedule(samples: seq<real>)
    ensures TurnSchedule(samples, false) == []
  {
    if samples != [] {
      NoTurnSchedule(samples[..|samples| - 1]);
    }
  }

  /** Each heading correction of a fire sequence is immediately followed by a drive update. */
  lemma {:induction false} FireTurnsServiced(samples: seq<real>, powershot: bool, power: real, endTraj: Trajectory)
    ensures TurnsServiced(FireTrace(samples, powershot, power, endTraj))
  {
    IterationsServiced(samples, powershot, power);
    var tail: seq<Event> := if powershot then [Build(ReturnTrajectory(endTraj))] else [];
    TurnsServicedAppend(IterationsTrace(samples, powershot, power), tail);
  }

  lemma {:induction false} IterationsServiced(samples: seq<real>, powershot: bool, power: real)
    ensures TurnsServiced(IterationsTrace(samples, powershot, power))
  {
    if samples != [] {
      var init := samples[..|samples| - 1];
      var t := samples[|samples| - 1];
      IterationsServiced(init, powershot, power);
      IterationMatchesTables(t, powershot, power);
      var head := if powershot then [ShooterSet(power), DriveUpdate] else [ShooterSet(power)];
      var turn := TurnEvents(TurnCommand(t, powershot));
      var kick := KickEvents(KickCommand(t, powershot));
      assert TurnsServiced(head + turn + kick) by {
        var body := head + turn + kick;
        forall i | 0 <= i < |body| && body[i].DriveTurn?
          ensures i + 1 < |body| && body[i + 1] == DriveUpdate
        {
          assert i == |head|;
        }
      }
      TurnsServicedAppend(IterationsTrace(init, powershot, power), IterationEvents(t, powershot, power));
    }
  }

  /**
   * A fire sequence never follows a trajectory and never stops the shooter
   * by itself: it commands the shooter once per iteration, always to the
   * requested power.
   */
  lemma FireLeavesShooterRunning(samples: seq<real>, powershot: bool, power: real, endTraj: Trajectory)
    ensures Only(FireTrace(samples, powershot, power, endTraj), ShooterKind)
      == Repeat(ShooterSet(power), |samples|)
    ensures Only(FireTrace(samples, powershot, power, endTraj), FollowKind) == []
  {
    IterationsShooter(samples, powershot, power);
    if powershot {
      var body := IterationsTrace(samples, powershot, power);
      assert FireTrace(samples, powershot, power, endTraj) == body + [Build(ReturnTrajectory(endTraj))];
      OnlyDropsBuild(body, ReturnTrajectory(endTraj), ShooterKind);
      OnlyDropsBuild(body, ReturnTrajectory(endTraj), FollowKind);
    } else {
      assert FireTrace(samples, powershot, power, endTraj) == IterationsTrace(samples, powershot, power);
    }
  }
}
