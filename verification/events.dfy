/**
 * Values shared by the autonomous op-mode model: poses, trajectories, the
 * ring-stack height read once from the camera, and the events the op-mode
 * issues to its hardware (shooter motor, kicker servo, mecanum drive).
 *
 * A run is described by the sequence of events it issues, in order.
 */
module Trace {

  datatype Option<T> = None | Some(value: T)

  /** An angle as the source writes it: through Math.toRadians (degrees) or as a raw radian value. */
  datatype Angle = Degrees(deg: real) | Radians(rad: real)

  /** A field pose (x, y, heading), as RoadRunner's Pose2d. */
  datatype Pose = Pose(x: real, y: real, heading: Angle)

  /** A built trajectory: an opaque motion profile known by where it starts and ends. */
  datatype Trajectory = Trajectory(start: Pose, end: Pose)

  /** The ring-stack height reported by the vision pipeline. */
  datatype Height = Zero | One | Four

  /** One command issued to a device or to the drive. */
  datatype Event =
    | ShooterSet(power: real)         // shooter.set(power)
    | KickerSet(position: real)       // kicker.setPosition(position)
    | DriveUpdate                     // drive.update()
    | DriveTurn(degrees: real)        // drive.turn(Math.toRadians(degrees))
    | Follow(traj: Trajectory)        // drive.followTrajectory(traj)
    | Build(traj: Trajectory)         // drive.trajectoryBuilder(...)...build()

  datatype Kind = ShooterKind | KickerKind | UpdateKind | TurnKind | FollowKind | BuildKind

  function KindOf(e: Event): Kind
  {
    match e
    case ShooterSet(_) => ShooterKind
    case KickerSet(_) => KickerKind
    case DriveUpdate => UpdateKind
    case DriveTurn(_) => TurnKind
    case Follow(_) => FollowKind
    case Build(_) => BuildKind
  }

  /** e, if it is of kind k. */
  function Keep(e: Event, k: Kind): seq<Event>
  {
    if KindOf(e) == k then [e] else []
  }

  /** The events of kind k in trace, in their original order. */
  function Only(trace: seq<Event>, k: Kind): seq<Event>
  {
    if trace == [] then [] else Only(trace[..|trace| - 1], k) + Keep(trace[|trace| - 1], k)
  }

  /** Filtering a concatenation filters each part. */
  lemma {:induction false} OnlyAppend(a: seq<Event>, b: seq<Event>, k: Kind)
    ensures Only(a + b, k) == Only(a, k) + Only(b, k)
  {
    if b == [] {
      assert a + b == a;
    } else {
      var init, last := b[..|b| - 1], b[|b| - 1];
      assert (a + b)[..|a + b| - 1] == a + init && (a + b)[|a + b| - 1] == last;
      OnlyAppend(a, init, k);
    }
  }

  lemma OnlyOfFour(a: seq<Event>, b: seq<Event>, c: seq<Event>, d: seq<Event>, k: Kind)
    ensures Only(a + b + c + d, k) == Only(a, k) + Only(b, k) + Only(c, k) + Only(d, k)
  {
    OnlyAppend(a + b + c, d, k);
    OnlyAppend(a + b, c, k);
    OnlyAppend(a, b, k);
  }

  /** Appending a trajectory build leaves the events of every other kind as they were. */
  lemma OnlyDropsBuild(trace: seq<Event>, traj: Trajectory, k: Kind)
    requires k != BuildKind
    ensures Only(trace + [Build(traj)], k) == Only(trace, k)
  {
    assert (trace + [Build(traj)])[..|trace|] == trace;
  }

  lemma OnlySingle(e: Event, k: Kind)
    ensures Only([e], k) == Keep(e, k)
  {
    assert [e][..0] == [];
  }

  lemma OnlyPair(e1: Event, e2: Event, k: Kind)
    ensures Only([e1, e2], k) == Keep(e1, k) + Keep(e2, k)
  {
    assert [e1, e2] == [e1] + [e2];
    OnlyAppend([e1], [e2], k);
    OnlySingle(e1, k);
    OnlySingle(e2, k);
  }

  lemma OnlyTriple(e1: Event, e2: Event, e3: Event, k: Kind)
    ensures Only([e1, e2, e3], k) == Keep(e1, k) + Keep(e2, k) + Keep(e3, k)
  {
    assert [e1, e2, e3] == [e1] + [e2, e3];
    OnlyAppend([e1], [e2, e3], k);
    OnlySingle(e1, k);
    OnlyPair(e2, e3, k);
  }

  lemma OnlyQuad(e1: Event, e2: Event, e3: Event, e4: Event, k: Kind)
    ensures Only([e1, e2, e3, e4], k) == Keep(e1, k) + Keep(e2, k) + Keep(e3, k) + Keep(e4, k)
  {
    assert [e1, e2, e3, e4] == [e1, e2] + [e3, e4];
    OnlyAppend([e1, e2], [e3, e4], k);
    OnlyPair(e1, e2, k);
    OnlyPair(e3, e4, k);
  }

  /** n copies of e. */
  function Repeat(e: Event, n: nat): (r: seq<Event>)
    ensures |r| == n
  {
    if n == 0 then [] else Repeat(e, n - 1) + [e]
  }

  /** Every drive turn in the trace is immediately followed by a drive update. */
  predicate TurnsServiced(trace: seq<Event>)
  {
    forall i :: 0 <= i < |trace| && trace[i].DriveTurn? ==> i + 1 < |trace| && trace[i + 1] == DriveUpdate
  }

  lemma TurnsServicedAppend(a: seq<Event>, b: seq<Event>)
    requires TurnsServiced(a) && TurnsServiced(b)
    ensures TurnsServiced(a + b)
  {
    forall i | 0 <= i < |a + b| && (a + b)[i].DriveTurn?
      ensures i + 1 < |a + b| && (a + b)[i + 1] == DriveUpdate
    {
      if i < |a| {
        assert a[i].DriveTurn?;
      } else {
        assert b[i - |a|].DriveTurn?;
      }
    }
  }
}
