/**
 * TimedAutonomous.runOpMode after the start signal: a loop that runs while
 * the op-mode is active, services the drive every iteration, and acts on an
 * iteration counter pp that starts at 0 and grows by one per iteration
 * whatever the drive is doing: at pp == 1 it follows traj2, at pp == 2 it
 * runs the powershot fire sequence, builds and follows a parking trajectory,
 * and stops the shooter. The source writes this loop three times, once per
 * ring-stack height; the three copies differ only in the parking target.
 *
 * opModeIsActive() is given as the number of times it answers true before
 * it first answers false.
 */
module Sequencer {
  import opened Trace
  import opened FireSchedule
  import opened FireController

  /** The shooter power passed to shoot. */
  const ShotPower: real := 0.76

  /** Every parking trajectory starts from (-10, -11) with a heading of 20 degrees. */
  const ParkingStart: Pose := Pose(-10.0, -11.0, Degrees(20.0))

  /** Where the robot parks, by ring-stack height: ONE, FOUR, and any other reading. */
  function ParkingTarget(h: Height): Pose
  {
    if h == One then Pose(29.0, -20.0, Radians(0.0))
    else if h == Four then Pose(53.0, -44.0, Radians(0.0))
    else Pose(5.0, -44.0, Radians(0.0))
  }

  function ParkingTrajectory(h: Height): Trajectory
  {
    Trajectory(ParkingStart, ParkingTarget(h))
  }

  /** What the shoot call at pp == 2 issues, given the readings of its clock. */
  function OpModeFire(traj2: Trajectory, fireClock: seq<real>): seq<Event>
  {
    FireTrace(Samples(fireClock, LoopBound(true)), true, ShotPower, traj2)
  }

  /** The commands of the iteration with counter value pp; fire is what its shoot call issues. */
  function StepEvents(pp: nat, h: Height, traj2: Trajectory, fire: seq<Event>): seq<Event>
  {
    [DriveUpdate]
    + if pp == 1 then [Follow(traj2)]
      else if pp == 2 then fire + [Build(ParkingTrajectory(h)), Follow(ParkingTrajectory(h)), ShooterSet(0.0)]
      else []
  }

  /** The commands of the first n iterations of the loop. */
  function RunTrace(n: nat, h: Height, traj2: Trajectory, fire: seq<Event>): seq<Event>
  {
    if n == 0 then [] else RunTrace(n - 1, h, traj2, fire) + StepEvents(n - 1, h, traj2, fire)
  }

  /**
   * The op-mode loop, for a run in which opModeIsActive() answers true
   * `polls` times; fireClock holds the readings of shoot's clock.
   */
  method RunOpMode(hgt: Height, traj2: Trajectory, polls: nat, fireClock: seq<real>)
    returns (trace: seq<Event>, pp: nat)
    requires polls > 2 ==> Crosses(fireClock, LoopBound(true))
    ensures pp == polls
    ensures trace == RunTrace(polls, hgt, traj2, OpModeFire(traj2, fireClock))
  {
    ghost var fire := OpModeFire(traj2, fireClock);
    pp := 0;
    trace := [];
    while pp < polls  // opModeIsActive()
      invariant pp <= polls
      invariant trace == RunTrace(pp, hgt, traj2, fire)
    {
      ghost var before := trace;
      trace := trace + [DriveUpdate];
      if pp == 1 {
        trace := trace + [Follow(traj2)];
        assert trace == before + ([DriveUpdate] + [Follow(traj2)]);
      } else if pp == 2 {
        var shots, _ := Shoot(ShotPower, true, traj2, fireClock);
        var traj3 := Trajectory(Pose(-10.0, -11.0, Degrees(20.0)), ParkingTarget(hgt));
        trace := trace + shots + [Build(traj3), Follow(traj3)];
        trace := trace + [ShooterSet(0.0)];
        assert shots == fire && traj3 == ParkingTrajectory(hgt);
        assert trace == before + ([DriveUpdate] + (fire + Park(hgt)));
      } else {
        assert trace == before + ([DriveUpdate] + []);
      }
      assert trace == before + StepEvents(pp, hgt, traj2, fire);
      pp := pp + 1;
    }
  }

  // ---------------------------------------------------------------------
  // The shape of a run.
  // ---------------------------------------------------------------------

  /** The commands of the first two iterations and the start of the third. */
  function Lead(traj2: Trajectory): seq<Event>
  {
    [DriveUpdate, DriveUpdate, Follow(traj2), DriveUpdate]
  }

  /** The commands of the third iteration after its shoot call. */
  function Park(h: Height): seq<Event>
  {
    [Build(ParkingTrajectory(h)), Follow(ParkingTrajectory(h)), ShooterSet(0.0)]
  }

  /**
   * A run of n iterations, written out: every iteration services the drive;
   * the second also follows traj2; the third runs the whole fire sequence,
   * then builds and follows the parking trajectory, then stops the shooter;
   * every later iteration only services the drive.
   */
  lemma RunShape(n: nat, h: Height, traj2: Trajectory, fire: seq<Event>)
    ensures n == 0 ==> RunTrace(n, h, traj2, fire) == []
    ensures n == 1 ==> RunTrace(n, h, traj2, fire) == [DriveUpdate]
    ensures n == 2 ==> RunTrace(n, h, traj2, fire) == [DriveUpdate, DriveUpdate, Follow(traj2)]
    ensures n >= 3 ==>
      RunTrace(n, h, traj2, fire) ==
        [DriveUpdate, DriveUpdate, Follow(traj2), DriveUpdate] + fire
        + [Build(ParkingTrajectory(h)), Follow(ParkingTrajectory(h)), ShooterSet(0.0)]
        + Repeat(DriveUpdate, n - 3)
  {
    if n < 3 {
      RunShapeEarly(n, h, traj2, fire);
    } else {
      RunShapeLate(n, h, traj2, fire);
    }
  }

  lemma {:induction false} RunShapeEarly(n: nat, h: Height, traj2: Trajectory, fire: seq<Event>)
    requires n < 3
    ensures RunTrace(n, h, traj2, fire) ==
      if n == 0 then [] else if n == 1 then [DriveUpdate] else [DriveUpdate, DriveUpdate, Follow(traj2)]
  {
    if n > 0 {
      RunShapeEarly(n - 1, h, traj2, fire);
    }
  }

  lemma {:induction false} RunShapeLate(n: nat, h: Height, traj2: Trajectory, fire: seq<Event>)
    requires n >= 3
    ensures RunTrace(n, h, traj2, fire) == Lead(traj2) + fire + Park(h) + Repeat(DriveUpdate, n - 3)
  {
    if n == 3 {
      RunShapeEarly(2, h, traj2, fire);
      assert RunTrace(3, h, traj2, fire) == RunTrace(2, h, traj2, fire) + StepEvents(2, h, traj2, fire);
      assert Repeat(DriveUpdate, 0) == [];
    } else {
      RunShapeLate(n - 1, h, traj2, fire);
      assert Repeat(DriveUpdate, n - 3) == Repeat(DriveUpdate, n - 4) + [DriveUpdate];
    }
  }

  lemma {:induction false} UpdatesByDevice(n: nat, k: Kind)
    requires k != UpdateKind
    ensures Only(Repeat(DriveUpdate, n), k) == []
  {
    if n > 0 {
      OnlyAppend(Repeat(DriveUpdate, n - 1), [DriveUpdate], k);
      OnlySingle(DriveUpdate, k);
      UpdatesByDevice(n - 1, k);
    }
  }

  /** Sorted by device (other than the drive's update), a run past its third iteration is: lead, fire sequence, parking. */
  lemma RunByDevice(n: nat, h: Height, traj2: Trajectory, fire: seq<Event>, k: Kind)
    requires n >= 3 && k != UpdateKind
    ensures Only(RunTrace(n, h, traj2, fire), k) == Only(Lead(traj2), k) + Only(fire, k) + Only(Park(h), k)
  {
    RunShapeLate(n, h, traj2, fire);
    OnlyOfFour(Lead(traj2), fire, Park(h), Repeat(DriveUpdate, n - 3), k);
    UpdatesByDevice(n - 3, k);
    assert Only(Lead(traj2), k) + Only(fire, k) + Only(Park(h), k) + []
      == Only(Lead(traj2), k) + Only(fire, k) + Only(Park(h), k);
  }

  lemma LeadByDevice(traj2: Trajectory)
    ensures Only(Lead(traj2), ShooterKind) == []
    ensures Only(Lead(traj2), FollowKind) == [Follow(traj2)]
  {
    OnlyQuad(DriveUpdate, DriveUpdate, Follow(traj2), DriveUpdate, ShooterKind);
    OnlyQuad(DriveUpdate, DriveUpdate, Follow(traj2), DriveUpdate, FollowKind);
  }

  lemma ParkByDevice(h: Height)
    ensures Only(Park(h), ShooterKind) == [ShooterSet(0.0)]
    ensures Only(Park(h), FollowKind) == [Follow(ParkingTrajectory(h))]
  {
    var p := ParkingTrajectory(h);
    OnlyTriple(Build(p), Follow(p), ShooterSet(0.0), ShooterKind);
    OnlyTriple(Build(p), Follow(p), ShooterSet(0.0), FollowKind);
  }

  /** Sorted by device, the first three iterations before the shoot call: drive updates and one follow of traj2. */
  lemma EarlyByDevice(n: nat, h: Height, traj2: Trajectory, fire: seq<Event>)
    requires n < 3
    ensures Only(RunTrace(n, h, traj2, fire), ShooterKind) == []
    ensures Only(RunTrace(n, h, traj2, fire), FollowKind) == if n == 2 then [Follow(traj2)] else []
  {
    RunShapeEarly(n, h, traj2, fire);
    if n == 1 {
      OnlySingle(DriveUpdate, ShooterKind);
      OnlySingle(DriveUpdate, FollowKind);
    } else if n == 2 {
      OnlyTriple(DriveUpdate, DriveUpdate, Follow(traj2), ShooterKind);
      OnlyTriple(DriveUpdate, DriveUpdate, Follow(traj2), FollowKind);
    }
  }

  /**
   * For any fire sequence whose shooter commands are shots: a run commands
   * the shooter only from its third iteration on, with shots followed by one stop.
   */
  lemma ShooterOfRun(n: nat, h: Height, traj2: Trajectory, fire: seq<Event>, shots: seq<Event>)
    requires Only(fire, ShooterKind) == shots
    ensures n < 3 ==> Only(RunTrace(n, h, traj2, fire), ShooterKind) == []
    ensures n >= 3 ==> Only(RunTrace(n, h, traj2, fire), ShooterKind) == shots + [ShooterSet(0.0)]
  {
    if n < 3 {
      EarlyByDevice(n, h, traj2, fire);
    } else {
      LateShooter(n, h, traj2, fire);
    }
  }

  lemma LateShooter(n: nat, h: Height, traj2: Trajectory, fire: seq<Event>)
    requires n >= 3
    ensures Only(RunTrace(n, h, traj2, fire), ShooterKind) == Only(fire, ShooterKind) + [ShooterSet(0.0)]
  {
    var lead, park := Only(Lead(traj2), ShooterKind), Only(Park(h), ShooterKind);
    LeadByDevice(traj2);
    ParkByDevice(h);
    RunByDevice(n, h, traj2, fire, ShooterKind);
    assert lead + Only(fire, ShooterKind) + park == Only(fire, ShooterKind) + [ShooterSet(0.0)];
  }

  /**
   * For any fire sequence that follows no trajectory: a run follows traj2
   * from its second iteration on, and the parking trajectory from its third.
   */
  lemma FollowsOfRun(n: nat, h: Height, traj2: Trajectory, fire: seq<Event>)
    requires Only(fire, FollowKind) == []
    ensures n < 2 ==> Only(RunTrace(n, h, traj2, fire), FollowKind) == []
    ensures n == 2 ==> Only(RunTrace(n, h, traj2, fire), FollowKind) == [Follow(traj2)]
    ensures n >= 3 ==> Only(RunTrace(n, h, traj2, fire), FollowKind) == [Follow(traj2), Follow(ParkingTrajectory(h))]
  {
    if n < 3 {
      EarlyByDevice(n, h, traj2, fire);
    } else {
      LateFollows(n, h, traj2, fire);
    }
  }

  lemma LateFollows(n: nat, h: Height, traj2: Trajectory, fire: seq<Event>)
    requires n >= 3
    ensures Only(RunTrace(n, h, traj2, fire), FollowKind)
      == [Follow(traj2)] + Only(fire, FollowKind) + [Follow(ParkingTrajectory(h))]
  {
    LeadByDevice(traj2);
    ParkByDevice(h);
    RunByDevice(n, h, traj2, fire, FollowKind);
  }

  /**
   * The shooter commands of a whole run: none before the fire sequence; then
   * ShotPower once per fire iteration; then 0 exactly once, after the fire
   * sequence has returned; nothing after.
   */
  lemma ShooterStoppedOnceAfterFire(n: nat, h: Height, traj2: Trajectory, fireClock: seq<real>)
    ensures n < 3 ==> Only(RunTrace(n, h, traj2, OpModeFire(traj2, fireClock)), ShooterKind) == []
    ensures n >= 3 ==>
      Only(RunTrace(n, h, traj2, OpModeFire(traj2, fireClock)), ShooterKind)
        == Repeat(ShooterSet(ShotPower), |Samples(fireClock, LoopBound(true))|) + [ShooterSet(0.0)]
  {
    var samples := Samples(fireClock, LoopBound(true));
    FireLeavesShooterRunning(samples, true, ShotPower, traj2);
    ShooterOfRun(n, h, traj2, OpModeFire(traj2, fireClock), Repeat(ShooterSet(ShotPower), |samples|));
  }

  /**
   * The trajectories a run follows: traj2 (in the second iteration), then
   * the parking trajectory of the height read (in the third); no others.
   */
  lemma RunFollows(n: nat, h: Height, traj2: Trajectory, fireClock: seq<real>)
    ensures n < 2 ==> Only(RunTrace(n, h, traj2, OpModeFire(traj2, fireClock)), FollowKind) == []
    ensures n == 2 ==> Only(RunTrace(n, h, traj2, OpModeFire(traj2, fireClock)), FollowKind) == [Follow(traj2)]
    ensures n >= 3 ==>
      Only(RunTrace(n, h, traj2, OpModeFire(traj2, fireClock)), FollowKind)
        == [Follow(traj2), Follow(ParkingTrajectory(h))]
  {
    FireLeavesShooterRunning(Samples(fireClock, LoopBound(true)), true, ShotPower, traj2);
    FollowsOfRun(n, h, traj2, OpModeFire(traj2, fireClock));
  }

  // ---------------------------------------------------------------------
  // The three height branches.
  // ---------------------------------------------------------------------

  /** a and b agree everywhere except where a builds or follows p1 and b does the same with p2. */
  predicate SameButParking(a: seq<Event>, b: seq<Event>, p1: Trajectory, p2: Trajectory)
  {
    |a| == |b| &&
    forall i :: 0 <= i < |a| ==>
      a[i] == b[i] ||
      (a[i] == Build(p1) && b[i] == Build(p2)) ||
      (a[i] == Follow(p1) && b[i] == Follow(p2))
  }

  /**
   * The height read by the camera changes nothing in a run but the parking
   * trajectory; and once the third iteration has run, distinct heights give
   * distinct runs.
   */
  lemma {:induction false} HeightOnlyChoosesParking(n: nat, h1: Height, h2: Height, traj2: Trajectory, fire: seq<Event>)
    ensures SameButParking(RunTrace(n, h1, traj2, fire), RunTrace(n, h2, traj2, fire),
                           ParkingTrajectory(h1), ParkingTrajectory(h2))
    ensures RunTrace(n, h1, traj2, fire) == RunTrace(n, h2, traj2, fire) <==> n < 3 || h1 == h2
  {
    var p1, p2 := ParkingTrajectory(h1), ParkingTrajectory(h2);
    RunShape(n, h1, traj2, fire);
    RunShape(n, h2, traj2, fire);
    if n >= 3 {
      var a := [DriveUpdate, DriveUpdate, Follow(traj2), DriveUpdate] + fire;
      var t1 := RunTrace(n, h1, traj2, fire);
      var t2 := RunTrace(n, h2, traj2, fire);
      forall i | 0 <= i < |t1|
        ensures t1[i] == t2[i] || (t1[i] == Build(p1) && t2[i] == Build(p2)) ||
                (t1[i] == Follow(p1) && t2[i] == Follow(p2))
      {
        if i < |a| {
          assert t1[i] == a[i] == t2[i];
        } else if i == |a| {
          assert t1[i] == Build(p1) && t2[i] == Build(p2);
        } else if i == |a| + 1 {
          assert t1[i] == Follow(p1) && t2[i] == Follow(p2);
        } else if i == |a| + 2 {
          assert t1[i] == ShooterSet(0.0) == t2[i];
        } else {
          var rest := Repeat(DriveUpdate, n - 3);
          assert t1[i] == rest[i - |a| - 3] == t2[i];
        }
      }
      if h1 != h2 {
        assert t1[|a|] == Build(p1) && t2[|a|] == Build(p2);
        assert ParkingTarget(h1) != ParkingTarget(h2);
      }
    }
  }
}
