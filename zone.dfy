/**
 * The safe zone (SafeZone): a disc on the ground that counts how long the
 * player has stayed inside it without interruption, and reports that time as
 * a win progress clamped to [0, 1].
 */
module Zone {
  import opened Scene

  /** Slack added to the radius by the inside test. */
  const EdgeTolerance: real := 0.05
  /** Floor of the progress divisor, so that progress is defined for any timeToWin. */
  const MinTimeToWin: real := 0.01

  // ---------------------------------------------------------------------------
  // The inside test

  /**
   * The squared distance between the zone centre and the player moved to the
   * centre's height, i.e. the squared distance on the ground plane.
   */
  function HorizontalDistanceSquared(player: Vec3, center: Vec3): (r: real)
    ensures r >= 0.0
  {
    (player.x - center.x) * (player.x - center.x) + (player.z - center.z) * (player.z - center.z)
  }

  /**
   * The inside test on squared distances: the distance is at most
   * radius + EdgeTolerance. Comparing squares avoids the square root; the
   * lemma InsideMatchesDistance shows that nothing is lost.
   */
  predicate Inside(player: Vec3, center: Vec3, radius: real) {
    var reach := radius + EdgeTolerance;
    reach >= 0.0 && HorizontalDistanceSquared(player, center) <= reach * reach
  }

  lemma SquareMonotone(a: real, b: real)
    requires 0.0 <= a && 0.0 <= b
    ensures a <= b <==> a * a <= b * b
  {
    if a <= b {
      assert a * a <= a * b <= b * b;
    } else {
      StrictSquare(b, a);
    }
  }

  lemma StrictSquare(a: real, b: real)
    requires 0.0 <= a < b
    ensures a * a < b * b
  {
    PositiveProduct(b - a, b + a);
    assert (b - a) * (b + a) == b * b - a * a;
  }

  lemma PositiveProduct(x: real, y: real)
    requires x > 0.0 && y > 0.0
    ensures x * y > 0.0
  {
  }

  /**
   * For every non-negative d whose square is the horizontal squared distance
   * (that is, d is the horizontal distance), the player is inside exactly when
   * d <= radius + EdgeTolerance.
   */
  lemma InsideMatchesDistance(player: Vec3, center: Vec3, radius: real, d: real)
    requires d >= 0.0 && d * d == HorizontalDistanceSquared(player, center)
    ensures Inside(player, center, radius) <==> d <= radius + EdgeTolerance
  {
    var reach := radius + EdgeTolerance;
    if reach >= 0.0 {
      SquareMonotone(d, reach);
    }
  }

  // ---------------------------------------------------------------------------
  // Progress

  function Clamp01(x: real): (r: real)
    ensures 0.0 <= r <= 1.0
    ensures 0.0 <= x <= 1.0 ==> r == x
  {
    if x < 0.0 then 0.0 else if x > 1.0 then 1.0 else x
  }

  /** The divisor of the progress: timeToWin, but never below MinTimeToWin. */
  function ProgressDivisor(timeToWin: real): (r: real)
    ensures r >= MinTimeToWin && r >= timeToWin
    ensures r == MinTimeToWin || r == timeToWin
  {
    if timeToWin > MinTimeToWin then timeToWin else MinTimeToWin
  }

  /**
   * The win progress for a stay of timeInZone seconds: in [0, 1], zero exactly
   * when no time has been spent inside, and complete exactly when the stay has
   * lasted the divisor (timeToWin when timeToWin >= MinTimeToWin).
   */
  function WinProgress(timeInZone: real, timeToWin: real): (r: real)
    ensures 0.0 <= r <= 1.0
    ensures r == 1.0 <==> timeInZone >= ProgressDivisor(timeToWin)
    ensures r == 0.0 <==> timeInZone <= 0.0
    ensures timeToWin >= MinTimeToWin ==> (r == 1.0 <==> timeInZone >= timeToWin)
  {
    var d := ProgressDivisor(timeToWin);
    QuotientBound(timeInZone, d);
    QuotientSign(timeInZone, d);
    Clamp01(timeInZone / d)
  }

  lemma QuotientBound(t: real, d: real)
    requires d > 0.0
    ensures t / d >= 1.0 <==> t >= d
  {
    var q := t / d;
    assert q * d == t;
    if q >= 1.0 {
      assert q * d >= 1.0 * d;
    } else {
      assert q * d < 1.0 * d;
    }
  }

  lemma QuotientSign(t: real, d: real)
    requires d > 0.0
    ensures t / d <= 0.0 <==> t <= 0.0
  {
    var q := t / d;
    assert q * d == t;
    if q <= 0.0 {
      assert q * d <= 0.0 * d;
    } else {
      assert q * d > 0.0 * d;
    }
  }

  /** A longer stay never shows less progress. */
  lemma WinProgressMonotone(t1: real, t2: real, timeToWin: real)
    requires t1 <= t2
    ensures WinProgress(t1, timeToWin) <= WinProgress(t2, timeToWin)
  {
    var d := ProgressDivisor(timeToWin);
    var k := (t2 - t1) / d;
    assert k * d == t2 - t1 >= 0.0;
    assert k >= 0.0;
    assert t2 / d == t1 / d + k;
  }

  // ---------------------------------------------------------------------------
  // The occupancy timer as a value

  /** The two fields SafeZone.Update writes. */
  datatype Occupancy = Occupancy(playerInside: bool, timeInZone: real)

  /** No time counts while the player is outside. */
  predicate Settled(o: Occupancy) {
    !o.playerInside ==> o.timeInZone == 0.0
  }

  /**
   * One frame of SafeZone.Update. No player in the scene: nothing changes.
   * Inside: the stay grows by dt. Outside: the stay is forgotten.
   */
  function Sample(center: Vec3, radius: real, o: Occupancy, player: Option<Vec3>, dt: real): (r: Occupancy)
    ensures Settled(r) || (player == None && r == o)
    ensures player.Some? ==> (r.playerInside <==> Inside(player.value, center, radius))
    ensures player == None ==> r == o
    ensures player.Some? && Inside(player.value, center, radius) ==> r.timeInZone == o.timeInZone + dt
    ensures player.Some? && !Inside(player.value, center, radius) ==> r.timeInZone == 0.0
  {
    match player
    case None => o
    case Some(p) =>
      if Inside(p, center, radius) then Occupancy(true, o.timeInZone + dt)
      else Occupancy(false, 0.0)
  }

  /** What the zone sees in a frame: the player's position, if there is a player, and the frame time. */
  datatype Sighting = Sighting(player: Option<Vec3>, dt: real)

  /** The fields after a sequence of frames, oldest first. */
  function Replay(center: Vec3, radius: real, o: Occupancy, ss: seq<Sighting>): Occupancy
    decreases |ss|
  {
    if ss == [] then o
    else Sample(center, radius, Replay(center, radius, o, ss[..|ss| - 1]), ss[|ss| - 1].player, ss[|ss| - 1].dt)
  }

  /** A frame in which a player was found and was outside the zone. */
  predicate Left(center: Vec3, radius: real, s: Sighting) {
    s.player.Some? && !Inside(s.player.value, center, radius)
  }

  /**
   * The length of the current stay: the frame times since the latest frame that
   * found the player outside, skipping frames with no player (they change nothing).
   */
  function CurrentStay(center: Vec3, radius: real, ss: seq<Sighting>): real
    decreases |ss|
  {
    if ss == [] || Left(center, radius, ss[|ss| - 1]) then 0.0
    else
      var last := ss[|ss| - 1];
      CurrentStay(center, radius, ss[..|ss| - 1]) + (if last.player.Some? then last.dt else 0.0)
  }

  /**
   * No partial credit survives an exit: from a settled state with no time
   * counted, timeInZone is always the length of the current uninterrupted stay.
   */
  lemma {:induction false} TimeInZoneIsCurrentStay(center: Vec3, radius: real, o: Occupancy, ss: seq<Sighting>)
    requires o.timeInZone == 0.0
    ensures Replay(center, radius, o, ss).timeInZone == CurrentStay(center, radius, ss)
    decreases |ss|
  {
    if ss != [] {
      TimeInZoneIsCurrentStay(center, radius, o, ss[..|ss| - 1]);
    }
  }

  /** While the player stays inside and time runs forward, the progress never drops. */
  lemma ProgressGrowsWhileInside(center: Vec3, radius: real, timeToWin: real, o: Occupancy, p: Vec3, dt: real)
    requires dt >= 0.0 && Inside(p, center, radius)
    ensures WinProgress(o.timeInZone, timeToWin)
         <= WinProgress(Sample(center, radius, o, Some(p), dt).timeInZone, timeToWin)
  {
    WinProgressMonotone(o.timeInZone, o.timeInZone + dt, timeToWin);
  }

  /** Leaving the zone takes the progress back to exactly zero. */
  lemma ExitForfeitsProgress(center: Vec3, radius: real, timeToWin: real, o: Occupancy, p: Vec3, dt: real)
    requires !Inside(p, center, radius)
    ensures WinProgress(Sample(center, radius, o, Some(p), dt).timeInZone, timeToWin) == 0.0
    ensures !Sample(center, radius, o, Some(p), dt).playerInside
  {
  }

  // ---------------------------------------------------------------------------
  // The component

  class SafeZone {
    const center: Vec3
    const radius: real
    const timeToWin: real

    var timeInZone: real
    var playerInside: bool

    function Snapshot(): Occupancy
      reads this
    {
      Occupancy(playerInside, timeInZone)
    }

    ghost predicate Valid()
      reads this
    {
      Settled(Snapshot())
    }

    constructor (center: Vec3, radius: real, timeToWin: real)
      ensures this.center == center && this.radius == radius && this.timeToWin == timeToWin
      ensures !playerInside && timeInZone == 0.0
      ensures Valid()
    {
      this.center := center;
      this.radius := radius;
      this.timeToWin := timeToWin;
      timeInZone := 0.0;
      playerInside := false;
    }

    /**
     * One frame. The player is a parameter (None when none was found in the
     * scene); the zone's own position is center.
     */
    method Update(player: Option<Vec3>, dt: real)
      requires Valid()
      modifies this
      ensures Valid()
      ensures Snapshot() == Sample(center, radius, old(Snapshot()), player, dt)
      ensures player == None ==> timeInZone == old(timeInZone) && playerInside == old(playerInside)
      ensures player.Some? && Inside(player.value, center, radius) ==>
        playerInside && timeInZone == old(timeInZone) + dt
      ensures player.Some? && !Inside(player.value, center, radius) ==>
        !playerInside && timeInZone == 0.0
    {
      if player == None {
        return;
      }
      var p := player.value;
      var inRange := Inside(Vec3(p.x, center.y, p.z), center, radius);
      InsideMatchesHeight(p, center, radius);
      if inRange {
        playerInside := true;
        timeInZone := timeInZone + dt;
      } else {
        playerInside := false;
        timeInZone := 0.0;
      }
    }

    /** Whether the latest frame found the player inside; when not, no time is counted. */
    function IsPlayerInZone(): (r: bool)
      reads this
      requires Valid()
      ensures !r ==> timeInZone == 0.0
    {
      playerInside
    }

    /** The progress towards victory, with the guarantees of WinProgress. */
    function GetWinProgress(): (r: real)
      reads this
      ensures 0.0 <= r <= 1.0
      ensures r == 1.0 <==> timeInZone >= ProgressDivisor(timeToWin)
    {
      WinProgress(timeInZone, timeToWin)
    }

    /** The length of the current stay; zero whenever the player is not inside. */
    function GetTimeInZone(): (r: real)
      reads this
      requires Valid()
      ensures !playerInside ==> r == 0.0
    {
      timeInZone
    }
  }

  /** The inside test does not depend on the player's height. */
  lemma InsideMatchesHeight(p: Vec3, center: Vec3, radius: real)
    ensures Inside(Vec3(p.x, center.y, p.z), center, radius) == Inside(p, center, radius)
  {
  }
}
