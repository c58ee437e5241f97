/**
 * The per-iteration decisions of TimedAutonomous.shoot: for one reading t of
 * the fire sequence's clock (seconds since the sequence began) and the
 * powershot flag, which commands the loop body issues.
 *
 * IterationEvents runs the loop body as written: its statements in source
 * order, among them independent if / else-if chains over t. The pulse tables below are an independent,
 * declarative statement of the same schedule (first matching window wins);
 * IterationMatchesTables proves the two agree for every t.
 */
module FireSchedule {
  import opened Trace

  /** Kicker servo positions used by the fire sequence. */
  const KickerFire: real := 0.3
  const KickerRest: real := 0.0

  /** The fire loop runs while the clock reads at most this many seconds. */
  function LoopBound(powershot: bool): real
  {
    if powershot then 12.0 else 5.0
  }

  // ---------------------------------------------------------------------
  // The loop body as written: its statements in order, and what each one
  // issues when the clock reads t.
  // ---------------------------------------------------------------------

  /** One statement of a fire loop body. */
  datatype Stmt =
    | SetShooter                                  // command the shooter to the requested power
    | Update                                      // service the drive
    | TurnIn(lo: real, hi: real, degrees: real)   // on [lo, hi): turn by degrees, then service the drive
    | KickIn(lo: real, mid: real, hi: real)       // on [lo, mid]: fire the kicker; otherwise on [mid, hi]: rest it

  /** The body of the powershot loop. */
  const PowershotBody: seq<Stmt> := [
    SetShooter, Update,
    TurnIn(0.0, 1.0, -5.0), KickIn(2.0, 3.0, 4.0),
    TurnIn(4.5, 5.0, 15.0), KickIn(6.0, 7.0, 8.0),
    TurnIn(8.5, 9.0, 20.0), KickIn(10.0, 11.0, 12.0)
  ]

  /** The body of the other loop: no drive update and no turns. */
  const SimpleBody: seq<Stmt> := [
    SetShooter, KickIn(0.0, 0.5, 1.0), KickIn(2.0, 2.5, 3.0), KickIn(4.0, 4.5, 5.0)
  ]

  function StmtEvents(s: Stmt, t: real, power: real): seq<Event>
  {
    match s
    case SetShooter => [ShooterSet(power)]
    case Update => [DriveUpdate]
    case TurnIn(lo, hi, degrees) =>
      if lo <= t < hi then [DriveTurn(degrees), DriveUpdate] else []
    case KickIn(lo, mid, hi) =>
      if lo <= t <= mid then [KickerSet(KickerFire)]
      else if mid <= t <= hi then [KickerSet(KickerRest)]
      else []
  }

  /** The commands the statements of body issue, in order, when the clock reads t. */
  function Exec(body: seq<Stmt>, t: real, power: real): seq<Event>
  {
    if body == [] then [] else StmtEvents(body[0], t, power) + Exec(body[1..], t, power)
  }

  /** The commands one iteration of shoot's loop issues when the clock reads t. */
  function IterationEvents(t: real, powershot: bool, power: real): seq<Event>
  {
    Exec(if powershot then PowershotBody else SimpleBody, t, power)
  }

  lemma ExecStep(body: seq<Stmt>, t: real, power: real)
    requires body != []
    ensures Exec(body, t, power) == StmtEvents(body[0], t, power) + Exec(body[1..], t, power)
  {
  }

  /** The powershot body, statement by statement. */
  lemma PowershotBodyUnrolled(t: real, power: real)
    ensures IterationEvents(t, true, power) ==
      StmtEvents(PowershotBody[0], t, power) + (StmtEvents(PowershotBody[1], t, power) +
      (StmtEvents(PowershotBody[2], t, power) + (StmtEvents(PowershotBody[3], t, power) +
      (StmtEvents(PowershotBody[4], t, power) + (StmtEvents(PowershotBody[5], t, power) +
      (StmtEvents(PowershotBody[6], t, power) + (StmtEvents(PowershotBody[7], t, power))))))))
  {
    var b := PowershotBody;
    ExecStep(b, t, power);
    ExecStep(b[1..], t, power);
    ExecStep(b[2..], t, power);
    ExecStep(b[3..], t, power);
    ExecStep(b[4..], t, power);
    ExecStep(b[5..], t, power);
    ExecStep(b[6..], t, power);
    ExecStep(b[7..], t, power);
    assert b[1..][1..] == b[2..] && b[2..][1..] == b[3..] && b[3..][1..] == b[4..];
    assert b[4..][1..] == b[5..] && b[5..][1..] == b[6..] && b[6..][1..] == b[7..];
    assert b[7..][1..] == [];
    assert StmtEvents(b[7], t, power) + [] == StmtEvents(b[7], t, power);
  }

  /** The simple body, statement by statement. */
  lemma SimpleBodyUnrolled(t: real, power: real)
    ensures IterationEvents(t, false, power) ==
      StmtEvents(SimpleBody[0], t, power) + (StmtEvents(SimpleBody[1], t, power) +
      (StmtEvents(SimpleBody[2], t, power) + StmtEvents(SimpleBody[3], t, power)))
  {
    var b := SimpleBody;
    ExecStep(b, t, power);
    ExecStep(b[1..], t, power);
    ExecStep(b[2..], t, power);
    ExecStep(b[3..], t, power);
    assert b[1..][1..] == b[2..] && b[2..][1..] == b[3..] && b[3..][1..] == [];
    assert StmtEvents(b[3], t, power) + [] == StmtEvents(b[3], t, power);
  }

  // ---------------------------------------------------------------------
  // The schedule as tables of time windows.
  // ---------------------------------------------------------------------

  /** The window [lo, hi] (or [lo, hi) when not closedAbove) and the command issued in it. */
  datatype Window = Window(lo: real, hi: real, closedAbove: bool, command: real)

  predicate Contains(w: Window, t: real)
  {
    w.lo <= t && (if w.closedAbove then t <= w.hi else t < w.hi)
  }

  /** The command of the first window of table that contains t, if any. */
  function Lookup(table: seq<Window>, t: real): (r: Option<real>)
    ensures r.None? <==> forall i :: 0 <= i < |table| ==> !Contains(table[i], t)
    ensures r.Some? ==>
      exists i :: 0 <= i < |table| && Contains(table[i], t) && r.value == table[i].command &&
        forall j :: 0 <= j < i ==> !Contains(table[j], t)
  {
    if table == [] then None
    else if Contains(table[0], t) then Some(table[0].command)
    else
      var r := Lookup(table[1..], t);
      assert forall i :: 1 <= i < |table| ==> table[i] == table[1..][i - 1];
      r
  }

  /** Lookup on a table of at most six windows, written out as the if / else-if chain it stands for. */
  lemma LookupUnrolled(table: seq<Window>, t: real)
    requires |table| <= 6
    ensures Lookup(table, t) ==
      if |table| > 0 && Contains(table[0], t) then Some(table[0].command)
      else if |table| > 1 && Contains(table[1], t) then Some(table[1].command)
      else if |table| > 2 && Contains(table[2], t) then Some(table[2].command)
      else if |table| > 3 && Contains(table[3], t) then Some(table[3].command)
      else if |table| > 4 && Contains(table[4], t) then Some(table[4].command)
      else if |table| > 5 && Contains(table[5], t) then Some(table[5].command)
      else None
  {
  }

  const PowershotKicks: seq<Window> := [
    Window(2.0, 3.0, true, KickerFire), Window(3.0, 4.0, true, KickerRest),
    Window(6.0, 7.0, true, KickerFire), Window(7.0, 8.0, true, KickerRest),
    Window(10.0, 11.0, true, KickerFire), Window(11.0, 12.0, true, KickerRest)
  ]

  const SimpleKicks: seq<Window> := [
    Window(0.0, 0.5, true, KickerFire), Window(0.5, 1.0, true, KickerRest),
    Window(2.0, 2.5, true, KickerFire), Window(2.5, 3.0, true, KickerRest),
    Window(4.0, 4.5, true, KickerFire), Window(4.5, 5.0, true, KickerRest)
  ]

  /** Heading corrections, in degrees, of the powershot sequence. */
  const PowershotTurns: seq<Window> := [
    Window(0.0, 1.0, false, -5.0), Window(4.5, 5.0, false, 15.0), Window(8.5, 9.0, false, 20.0)
  ]

  /** The kicker position the schedule commands at t, or None for no kicker command. */
  function KickCommand(t: real, powershot: bool): Option<real>
  {
    Lookup(if powershot then PowershotKicks else SimpleKicks, t)
  }

  /** The heading correction the schedule commands at t, or None. */
  function TurnCommand(t: real, powershot: bool): Option<real>
  {
    if powershot then Lookup(PowershotTurns, t) else None
  }

  function KickEvents(c: Option<real>): seq<Event>
  {
    match c
    case None => []
    case Some(p) => [KickerSet(p)]
  }

  function TurnEvents(c: Option<real>): seq<Event>
  {
    match c
    case None => []
    case Some(d) => [DriveTurn(d), DriveUpdate]
  }

  // ---------------------------------------------------------------------
  // The windows, stated outright.
  // ---------------------------------------------------------------------

  /**
   * Powershot kicker schedule: 0.3 on [2,3], [6,7], [10,11]; 0 on (3,4],
   * (7,8], (11,12] (at 3, 7 and 11 the first branch wins); nothing otherwise.
   */
  lemma PowershotKickWindows(t: real)
    ensures KickCommand(t, true) == Some(KickerFire) <==>
      (2.0 <= t <= 3.0 || 6.0 <= t <= 7.0 || 10.0 <= t <= 11.0)
    ensures KickCommand(t, true) == Some(KickerRest) <==>
      (3.0 < t <= 4.0 || 7.0 < t <= 8.0 || 11.0 < t <= 12.0)
    ensures KickCommand(t, true).None? <==>
      !(2.0 <= t <= 4.0 || 6.0 <= t <= 8.0 || 10.0 <= t <= 12.0)
  {
    LookupUnrolled(PowershotKicks, t);
  }

  /**
   * Simple kicker schedule: 0.3 on [0,0.5], [2,2.5], [4,4.5]; 0 on (0.5,1],
   * (2.5,3], (4.5,5]; nothing otherwise.
   */
  lemma SimpleKickWindows(t: real)
    ensures KickCommand(t, false) == Some(KickerFire) <==>
      (0.0 <= t <= 0.5 || 2.0 <= t <= 2.5 || 4.0 <= t <= 4.5)
    ensures KickCommand(t, false) == Some(KickerRest) <==>
      (0.5 < t <= 1.0 || 2.5 < t <= 3.0 || 4.5 < t <= 5.0)
    ensures KickCommand(t, false).None? <==>
      !(0.0 <= t <= 1.0 || 2.0 <= t <= 3.0 || 4.0 <= t <= 5.0)
  {
    LookupUnrolled(SimpleKicks, t);
  }

  /**
   * Heading corrections happen only in powershot mode: -5 degrees on [0,1),
   * +15 on [4.5,5), +20 on [8.5,9), none otherwise.
   */
  lemma TurnWindows(t: real, powershot: bool)
    ensures TurnCommand(t, powershot) == Some(-5.0) <==> powershot && 0.0 <= t < 1.0
    ensures TurnCommand(t, powershot) == Some(15.0) <==> powershot && 4.5 <= t < 5.0
    ensures TurnCommand(t, powershot) == Some(20.0) <==> powershot && 8.5 <= t < 9.0
    ensures TurnCommand(t, powershot).None? <==>
      !(powershot && (0.0 <= t < 1.0 || 4.5 <= t < 5.0 || 8.5 <= t < 9.0))
  {
    LookupUnrolled(PowershotTurns, t);
  }

  /**
   * The loop body as written agrees with the tables: one shooter command
   * (followed in powershot mode by a drive update), then the heading
   * correction of t's turn window, if any, followed by a drive update, then
   * the kicker command of t's kick window, if any. No t lies in both a turn
   * window and a kick window.
   */
  lemma IterationMatchesTables(t: real, powershot: bool, power: real)
    ensures IterationEvents(t, powershot, power) ==
      (if powershot then [ShooterSet(power), DriveUpdate] else [ShooterSet(power)])
      + TurnEvents(TurnCommand(t, powershot)) + KickEvents(KickCommand(t, powershot))
    ensures TurnCommand(t, powershot).None? || KickCommand(t, powershot).None?
  {
    if powershot {
      PowershotIterationMatches(t, power);
    } else {
      SimpleIterationMatches(t, power);
    }
  }

  lemma PowershotIterationMatches(t: real, power: real)
    ensures IterationEvents(t, true, power) ==
      [ShooterSet(power), DriveUpdate] + TurnEvents(TurnCommand(t, true)) + KickEvents(KickCommand(t, true))
    ensures TurnCommand(t, true).None? || KickCommand(t, true).None?
  {
    PowershotBodyUnrolled(t, power);
    TurnWindows(t, true);
    PowershotKickWindows(t);
  }

  lemma SimpleIterationMatches(t: real, power: real)
    ensures IterationEvents(t, false, power) ==
      [ShooterSet(power)] + TurnEvents(TurnCommand(t, false)) + KickEvents(KickCommand(t, false))
    ensures TurnCommand(t, false).None?
  {
    SimpleBodyUnrolled(t, power);
    SimpleKickWindows(t);
  }

  /** The heading correction as it appears among the turn commands of a trace. */
  function TurnMarks(c: Option<real>): seq<Event>
  {
    match c
    case None => []
    case Some(d) => [DriveTurn(d)]
  }

  /**
   * Sorted by device, one iteration issues exactly one shooter command (to
   * the requested power), the kicker command of the kick table, the heading
   * correction of the turn table, and no trajectory command.
   */
  lemma IterationByDevice(t: real, powershot: bool, power: real)
    ensures Only(IterationEvents(t, powershot, power), ShooterKind) == [ShooterSet(power)]
    ensures Only(IterationEvents(t, powershot, power), KickerKind) == KickEvents(KickCommand(t, powershot))
    ensures Only(IterationEvents(t, powershot, power), TurnKind) == TurnMarks(TurnCommand(t, powershot))
    ensures Only(IterationEvents(t, powershot, power), FollowKind) == []
  {
    IterationShooter(t, powershot, power);
    IterationKicker(t, powershot, power);
    IterationTurns(t, powershot, power);
  }

  lemma IterationShooter(t: real, powershot: bool, power: real)
    ensures Only(IterationEvents(t, powershot, power), ShooterKind) == [ShooterSet(power)]
    ensures Only(IterationEvents(t, powershot, power), FollowKind) == []
  {
    IterationMatchesTables(t, powershot, power);
    var head := if powershot then [ShooterSet(power), DriveUpdate] else [ShooterSet(power)];
    var turn := TurnEvents(TurnCommand(t, powershot));
    var kick := KickEvents(KickCommand(t, powershot));
    OnlyOfParts(head, turn, kick, ShooterKind);
    OnlyOfParts(head, turn, kick, FollowKind);
    HeadByDevice(powershot, power);
    TurnByDevice(TurnCommand(t, powershot));
    KickByDevice(KickCommand(t, powershot));
  }

  lemma IterationKicker(t: real, powershot: bool, power: real)
    ensures Only(IterationEvents(t, powershot, power), KickerKind) == KickEvents(KickCommand(t, powershot))
  {
    IterationMatchesTables(t, powershot, power);
    var head := if powershot then [ShooterSet(power), DriveUpdate] else [ShooterSet(power)];
    var turn := TurnEvents(TurnCommand(t, powershot));
    var kick := KickEvents(KickCommand(t, powershot));
    OnlyOfParts(head, turn, kick, KickerKind);
    HeadByDevice(powershot, power);
    TurnByDevice(TurnCommand(t, powershot));
    KickByDevice(KickCommand(t, powershot));
  }

  lemma IterationTurns(t: real, powershot: bool, power: real)
    ensures Only(IterationEvents(t, powershot, power), TurnKind) == TurnMarks(TurnCommand(t, powershot))
  {
    IterationMatchesTables(t, powershot, power);
    var head := if powershot then [ShooterSet(power), DriveUpdate] else [ShooterSet(power)];
    var turn := TurnEvents(TurnCommand(t, powershot));
    var kick := KickEvents(KickCommand(t, powershot));
    OnlyOfParts(head, turn, kick, TurnKind);
    HeadByDevice(powershot, power);
    TurnByDevice(TurnCommand(t, powershot));
    KickByDevice(KickCommand(t, powershot));
  }

  lemma OnlyOfParts(head: seq<Event>, turn: seq<Event>, kick: seq<Event>, k: Kind)
    ensures Only(head + turn + kick, k) == Only(head, k) + Only(turn, k) + Only(kick, k)
  {
    OnlyAppend(head + turn, kick, k);
    OnlyAppend(head, turn, k);
  }

  lemma HeadByDevice(powershot: bool, power: real)
    ensures var head := if powershot then [ShooterSet(power), DriveUpdate] else [ShooterSet(power)];
      Only(head, ShooterKind) == [ShooterSet(power)] &&
      Only(head, KickerKind) == [] && Only(head, TurnKind) == [] && Only(head, FollowKind) == []
  {
    if powershot {
      OnlyPair(ShooterSet(power), DriveUpdate, ShooterKind);
      OnlyPair(ShooterSet(power), DriveUpdate, KickerKind);
      OnlyPair(ShooterSet(power), DriveUpdate, TurnKind);
      OnlyPair(ShooterSet(power), DriveUpdate, FollowKind);
    } else {
      OnlySingle(ShooterSet(power), ShooterKind);
      OnlySingle(ShooterSet(power), KickerKind);
      OnlySingle(ShooterSet(power), TurnKind);
      OnlySingle(ShooterSet(power), FollowKind);
    }
  }

  lemma TurnByDevice(c: Option<real>)
    ensures Only(TurnEvents(c), TurnKind) == TurnMarks(c)
    ensures Only(TurnEvents(c), ShooterKind) == [] && Only(TurnEvents(c), KickerKind) == []
    ensures Only(TurnEvents(c), FollowKind) == []
  {
    if c.Some? {
      OnlyPair(DriveTurn(c.value), DriveUpdate, ShooterKind);
      OnlyPair(DriveTurn(c.value), DriveUpdate, KickerKind);
      OnlyPair(DriveTurn(c.value), DriveUpdate, TurnKind);
      OnlyPair(DriveTurn(c.value), DriveUpdate, FollowKind);
    }
  }

  lemma KickByDevice(c: Option<real>)
    ensures Only(KickEvents(c), KickerKind) == KickEvents(c)
    ensures Only(KickEvents(c), ShooterKind) == [] && Only(KickEvents(c), TurnKind) == []
    ensures Only(KickEvents(c), FollowKind) == []
  {
    if c.Some? {
      OnlySingle(KickerSet(c.value), ShooterKind);
      OnlySingle(KickerSet(c.value), KickerKind);
      OnlySingle(KickerSet(c.value), TurnKind);
      OnlySingle(KickerSet(c.value), FollowKind);
    }
  }

  /** Every command of the schedule falls inside the loop's running time [0, LoopBound]. */
  lemma ScheduleWithinLoop(t: real, powershot: bool)
    requires KickCommand(t, powershot).Some? || TurnCommand(t, powershot).Some?
    ensures 0.0 <= t <= LoopBound(powershot)
  {
    TurnWindows(t, powershot);
    if powershot {
      PowershotKickWindows(t);
    } else {
      SimpleKickWindows(t);
    }
  }
}
