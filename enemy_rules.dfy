/**
 * The adversary's per-frame decision logic (EnemyNPC) as pure functions on a
 * record of its fields. Each function here specifies one method of the
 * script; the class in module Enemy carries out the same steps on its fields.
 *
 * What the engine measures in a frame (distances, the view angle, ray-cast
 * results, the concealment query, Time.time and Time.deltaTime, the next
 * random wander point) arrives as a `Frame`. Movement is reported as a
 * `Motion` intent; the geometry that turns it into a position lives with the
 * host (see AvoidanceChoice and MoveInDirection at the end of this module).
 */
module EnemyRules {
  import opened Scene

  datatype EnemyState = Patrolling | Chasing | Searching | Attacking | GameOver

  /** Height every move pins the adversary to. */
  const GroundHeight: real := -0.3
  /** Within this distance a waypoint, wander target or last-seen spot counts as reached. */
  const ArrivalRadius: real := 0.8
  /** Seconds of fruitless searching before the adversary resumes patrolling. */
  const SearchDuration: real := 8.0
  /** Seconds between two evaluations of the sighting rule. */
  const DetectionCheckInterval: real := 0.15
  /** Degrees per second of the idle turn at the last-seen spot. */
  const SearchSpinRate: real := 60.0

  /** The inspector settings; none of them changes during a round. */
  datatype Config = Config(
    patrolSpeed: real,
    chaseSpeed: real,
    detectionRange: real,
    loseTargetRange: real,
    detectionAngle: real,
    detectionDelay: real,
    patrolPoints: seq<Vec3>,
    patrolWaitTime: real,
    randomPatrol: bool,
    captureDistance: real,
    escapeDistance: real,
    escapeTime: real,
    enableEscapeByDistance: bool,
    enableEscapeByTime: bool)

  /** What the engine reports for one frame. */
  datatype Frame = Frame(
    time: real,                   // Time.time
    dt: real,                     // Time.deltaTime
    playerPresent: bool,          // false when the player reference is missing
    playerPosition: Vec3,
    distance: real,               // adversary to player, before this frame's move
    angle: real,                  // angle between the forward heading and the player
    clearLine: bool,              // result of the line-of-sight ray cast
    hidden: bool,                 // the player reports itself concealed
    waypointDistance: real,       // adversary to patrolPoints[currentPatrolIndex]
    wanderDistance: real,         // adversary to randomPatrolTarget
    searchDistance: real,         // adversary to lastPlayerPosition
    nextWanderTarget: Vec3,       // the next random wander point, if one is drawn
    distanceAfterMove: real)      // adversary to player, after this frame's move

  /** The adversary's mutable fields. */
  datatype Npc = Npc(
    currentState: EnemyState,
    currentPatrolIndex: int,
    patrolTimer: real,
    randomPatrolTarget: Vec3,
    lastPlayerPosition: Vec3,
    searchTimer: real,
    escapeTimer: real,
    isPlayerEscaping: bool,
    lastDetectionCheck: real,
    detectionTimer: real,
    isInDetectionDelay: bool,
    hasLineOfSight: bool,
    gameIsOver: bool)

  /** The movement a frame asks for: none, a step toward a point at a speed, or a turn in place. */
  datatype Motion = Hold | Toward(target: Vec3, speed: real) | Spin(degrees: real)

  /** The session callback a frame schedules: none, game over (capture) or victory (escape). */
  datatype Signal = Quiet | Caught | Escaped

  datatype Outcome = Outcome(npc: Npc, motion: Motion, signal: Signal)

  /** The patrol index can be used to look up a waypoint. */
  predicate IndexInRange(c: Config, s: Npc) {
    0 <= s.currentPatrolIndex && (|c.patrolPoints| > 0 ==> s.currentPatrolIndex < |c.patrolPoints|)
  }

  /**
   * What holds of the fields between frames: Attacking never outlives the call
   * that enters it, the terminal flag and the GameOver state go together, a
   * chase has no pending confirmation, and the escape timer is zero while no
   * escape is under way.
   */
  predicate Consistent(c: Config, s: Npc) {
    && IndexInRange(c, s)
    && (|c.patrolPoints| == 0 ==> s.currentPatrolIndex == 0)
    && s.currentState != Attacking
    && (s.gameIsOver <==> s.currentState == GameOver)
    && (s.currentState == Chasing ==> !s.isInDetectionDelay)
    && (!s.isPlayerEscaping ==> s.escapeTimer == 0.0)
  }

  function Grounded(p: Vec3): Vec3 {
    p.(y := GroundHeight)
  }

  /** The fields after Start(): patrolling, every timer at zero, a first wander point if wandering. */
  function Initial(c: Config, firstWanderTarget: Vec3): Npc {
    var origin := Vec3(0.0, 0.0, 0.0);
    Npc(Patrolling, 0, 0.0,
        if c.randomPatrol && |c.patrolPoints| == 0 then Grounded(firstWanderTarget) else origin,
        origin, 0.0, 0.0, false, 0.0, 0.0, false, false, false)
  }

  /** The sighting rule: in range, in the field of view, a clear line and not concealed. */
  predicate Sees(c: Config, f: Frame) {
    var inRange := f.distance <= c.detectionRange;
    var inFov := f.angle <= c.detectionAngle * 0.5;
    inRange && inFov && f.clearLine && !f.hidden
  }

  /** OnPlayerDetected: a first sighting arms the confirmation delay; a later one, once it has run out, starts the chase. */
  function Confirm(c: Config, s: Npc, playerPosition: Vec3): Npc {
    var seen := s.(lastPlayerPosition := playerPosition);
    if !seen.isInDetectionDelay then seen.(isInDetectionDelay := true, detectionTimer := 0.0)
    else if seen.detectionTimer >= c.detectionDelay then seen.(currentState := Chasing, isInDetectionDelay := false)
    else seen
  }

  /** OnPlayerLost */
  function LoseTarget(s: Npc): Npc {
    s.(currentState := Searching, searchTimer := 0.0)
  }

  /** CapturePlayer, with the part of GameOverSequence that runs before its first yield. */
  function Capture(s: Npc): Outcome {
    if s.gameIsOver then Outcome(s, Hold, Quiet)
    else
      var attacking := s.(currentState := Attacking);
      Outcome(attacking.(gameIsOver := true, currentState := GameOver), Hold, Caught)
  }

  /** PlayerEscaped, with the part of VictorySequence that runs before its first yield. */
  function Escape(s: Npc): Outcome {
    if s.gameIsOver then Outcome(s, Hold, Quiet)
    else Outcome(s.(gameIsOver := true, currentState := GameOver), Hold, Escaped)
  }

  /** UpdateDetection: the confirmation clock, then, when a check is due, the sighting rule and its transitions. */
  function Detect(c: Config, s: Npc, f: Frame): (r: Npc)
    ensures r.currentPatrolIndex == s.currentPatrolIndex && r.patrolTimer == s.patrolTimer
    ensures r.randomPatrolTarget == s.randomPatrolTarget && r.gameIsOver == s.gameIsOver
    ensures r.escapeTimer == s.escapeTimer && r.isPlayerEscaping == s.isPlayerEscaping
  {
    var timed := if s.isInDetectionDelay then s.(detectionTimer := s.detectionTimer + f.dt) else s;
    if f.time - timed.lastDetectionCheck < DetectionCheckInterval then timed
    else
      var seen := Sees(c, f);
      var checked := timed.(lastDetectionCheck := f.time, hasLineOfSight := seen);
      if checked.currentState == Attacking || checked.currentState == GameOver then checked
      else if seen && (checked.currentState == Patrolling || checked.currentState == Searching) then
        Confirm(c, checked, f.playerPosition)
      else if !seen && checked.currentState == Chasing then
        (if f.distance > c.loseTargetRange then LoseTarget(checked) else checked)
      else if !seen && checked.isInDetectionDelay then
        checked.(isInDetectionDelay := false, detectionTimer := 0.0)
      else checked
  }

  /** PatrolBetweenPoints: walk to the current waypoint, dwell there, then move on cyclically. */
  function WaypointPatrol(c: Config, s: Npc, f: Frame): Outcome
    requires IndexInRange(c, s)
  {
    if |c.patrolPoints| == 0 then Outcome(s, Hold, Quiet)
    else
      var waypoint := c.patrolPoints[s.currentPatrolIndex];
      if f.waypointDistance > ArrivalRadius then Outcome(s, Toward(waypoint, c.patrolSpeed), Quiet)
      else
        var dwelt := s.patrolTimer + f.dt;
        if dwelt >= c.patrolWaitTime then
          Outcome(s.(currentPatrolIndex := (s.currentPatrolIndex + 1) % |c.patrolPoints|, patrolTimer := 0.0), Hold, Quiet)
        else Outcome(s.(patrolTimer := dwelt), Hold, Quiet)
  }

  /** RandomPatrol: walk to the wander point, dwell there, then take the next random point. */
  function Wander(c: Config, s: Npc, f: Frame): Outcome {
    if f.wanderDistance > ArrivalRadius then Outcome(s, Toward(s.randomPatrolTarget, c.patrolSpeed), Quiet)
    else
      var dwelt := s.patrolTimer + f.dt;
      if dwelt >= c.patrolWaitTime then
        Outcome(s.(randomPatrolTarget := Grounded(f.nextWanderTarget), patrolTimer := 0.0), Hold, Quiet)
      else Outcome(s.(patrolTimer := dwelt), Hold, Quiet)
  }

  /** HandlePatrolling: waypoints when there are some and wandering is off, otherwise wander. */
  function Patrol(c: Config, s: Npc, f: Frame): Outcome
    requires IndexInRange(c, s)
  {
    if |c.patrolPoints| > 0 && !c.randomPatrol then WaypointPatrol(c, s, f) else Wander(c, s, f)
  }

  /** HandleChasing, with ChasePlayer: capture when close, give up when unseen and far, otherwise pursue. */
  function Chase(c: Config, s: Npc, f: Frame): Outcome {
    if f.distance <= c.captureDistance then Capture(s)
    else if !s.hasLineOfSight && f.distance > c.loseTargetRange then Outcome(LoseTarget(s), Hold, Quiet)
    else Outcome(s.(lastPlayerPosition := f.playerPosition), Toward(f.playerPosition, c.chaseSpeed), Quiet)
  }

  /** HandleSearching, with SearchLastPosition. */
  function Search(c: Config, s: Npc, f: Frame): Outcome {
    var searched := s.(searchTimer := s.searchTimer + f.dt);
    if searched.hasLineOfSight then Outcome(Confirm(c, searched, f.playerPosition), Hold, Quiet)
    else if searched.searchTimer >= SearchDuration then Outcome(searched.(currentState := Patrolling), Hold, Quiet)
    else if f.searchDistance > ArrivalRadius then
      Outcome(searched, Toward(searched.lastPlayerPosition, c.patrolSpeed), Quiet)
    else Outcome(searched, Spin(SearchSpinRate * f.dt), Quiet)
  }

  /** UpdateStateBehavior: the handler of the current state; Attacking and GameOver have none. */
  function Behave(c: Config, s: Npc, f: Frame): Outcome
    requires IndexInRange(c, s)
  {
    match s.currentState
    case Patrolling => Patrol(c, s, f)
    case Chasing => Chase(c, s, f)
    case Searching => Search(c, s, f)
    case _ => Outcome(s, Hold, Quiet)
  }

  /** Detection followed by the state's behaviour: the pursuit part of a frame. */
  function Pursue(c: Config, s: Npc, f: Frame): Outcome
    requires IndexInRange(c, s)
  {
    Behave(c, Detect(c, s, f), f)
  }

  /** CheckEscapeConditions: time spent at or beyond escapeDistance, and the escape it can trigger. */
  function TrackEscape(c: Config, s: Npc, dt: real, d: real): Outcome {
    if !c.enableEscapeByDistance && !c.enableEscapeByTime then Outcome(s, Hold, Quiet)
    else if c.enableEscapeByDistance && d >= c.escapeDistance then
      var started := if !s.isPlayerEscaping then s.(isPlayerEscaping := true, escapeTimer := 0.0) else s;
      var timed := started.(escapeTimer := started.escapeTimer + dt);
      if c.enableEscapeByTime && timed.escapeTimer >= c.escapeTime then Escape(timed)
      else if !c.enableEscapeByTime then Escape(timed)
      else Outcome(timed, Hold, Quiet)
    else if s.isPlayerEscaping then Outcome(s.(isPlayerEscaping := false, escapeTimer := 0.0), Hold, Quiet)
    else Outcome(s, Hold, Quiet)
  }

  /** Update: nothing once the round is over or without a player; else detection, behaviour, escape check. */
  function Step(c: Config, s: Npc, f: Frame): Outcome
    requires IndexInRange(c, s)
  {
    if s.gameIsOver || !f.playerPresent then Outcome(s, Hold, Quiet)
    else
      var pursued := Pursue(c, s, f);
      var tracked := TrackEscape(c, pursued.npc, f.dt, f.distanceAfterMove);
      Outcome(tracked.npc, pursued.motion, if pursued.signal != Quiet then pursued.signal else tracked.signal)
  }

  // ---------------------------------------------------------------------------
  // Local steering, resolved by the host once it has the probe results.

  /** The result of the obstacle probes cast along and beside the intended direction. */
  datatype Probes = Probes(
    forwardHit: bool,         // the forward ray hit something
    hitName: string,          // name of the object it hit
    rightClear: bool,         // nothing along Cross(direction, up)
    leftClear: bool,          // nothing along the opposite side
    rightLaneBlocked: bool,   // the forward ray from the side offset along Cross(direction, up) hits
    leftLaneBlocked: bool)    // the forward ray from the opposite offset hits

  /**
   * The direction GetCollisionAvoidanceDirection returns. TurnRight is along
   * Cross(direction, up), which the source calls right; VeerLeft and VeerRight
   * bend the direction away from the blocked lane.
   */
  datatype Steer = Straight | TurnRight | TurnLeft | Reverse | VeerLeft | VeerRight

  function LowerChar(ch: char): char {
    if 'A' <= ch <= 'Z' then (ch as int + 32) as char else ch
  }

  /** String.ToLower on the ASCII letters. */
  function ToLower(s: string): (r: string)
    ensures |r| == |s|
    ensures forall i :: 0 <= i < |s| ==> r[i] == LowerChar(s[i])
  {
    if s == [] then [] else [LowerChar(s[0])] + ToLower(s[1..])
  }

  /** `w` occurs in `s` starting at index `i`. */
  ghost predicate OccursAt(w: string, s: string, i: int) {
    0 <= i && i + |w| <= |s| && s[i..i + |w|] == w
  }

  /** `w` occurs somewhere in `s` as a contiguous piece. */
  ghost predicate Occurs(w: string, s: string) {
    exists i :: OccursAt(w, s, i)
  }

  /** String.Contains, by scanning from the front. */
  function Contains(s: string, w: string): (r: bool)
    ensures r <==> Occurs(w, s)
  {
    ContainsScan(s, w);
    if |s| < |w| then false
    else s[..|w|] == w || Contains(s[1..], w)
  }

  /** An occurrence is either at the front or an occurrence in the tail. */
  lemma {:induction false} ContainsScan(s: string, w: string)
    ensures (if |s| < |w| then false else s[..|w|] == w || Occurs(w, s[1..])) <==> Occurs(w, s)
  {
    if |s| >= |w| {
      if s[..|w|] == w {
        assert OccursAt(w, s, 0);
      }
      if s[..|w|] != w && Occurs(w, s[1..]) {
        var i :| OccursAt(w, s[1..], i);
        assert s[1..][i..i + |w|] == s[i + 1..i + 1 + |w|];
        assert OccursAt(w, s, i + 1);
      }
      if Occurs(w, s) && s[..|w|] != w {
        var i :| OccursAt(w, s, i);
        assert s[1..][i - 1..i - 1 + |w|] == s[i..i + |w|];
        assert OccursAt(w, s[1..], i - 1);
      }
    }
  }

  /** IsArcadeMachine: the lower-cased name mentions "maquina", "arcade" or "machine". */
  function IsArcadeMachine(name: string): (r: bool)
    ensures r <==> Occurs("maquina", ToLower(name)) || Occurs("arcade", ToLower(name)) || Occurs("machine", ToLower(name))
  {
    var n := ToLower(name);
    Contains(n, "maquina") || Contains(n, "arcade") || Contains(n, "machine")
  }

  predicate ArcadeAhead(p: Probes) {
    p.forwardHit && IsArcadeMachine(p.hitName)
  }

  /**
   * The avoidance decision: an arcade machine straight ahead turns the
   * adversary to the first clear side, or back; otherwise a single blocked
   * lane bends the path away from it.
   */
  function AvoidanceChoice(p: Probes): (r: Steer)
    ensures ArcadeAhead(p) ==>
      && (r == TurnRight <==> p.rightClear)
      && (r == TurnLeft <==> !p.rightClear && p.leftClear)
      && (r == Reverse <==> !p.rightClear && !p.leftClear)
    ensures !ArcadeAhead(p) ==>
      && (r == VeerLeft <==> p.rightLaneBlocked && !p.leftLaneBlocked)
      && (r == VeerRight <==> p.leftLaneBlocked && !p.rightLaneBlocked)
      && (r == Straight <==> p.rightLaneBlocked == p.leftLaneBlocked)
  {
    if ArcadeAhead(p) then
      if p.rightClear then TurnRight else if p.leftClear then TurnLeft else Reverse
    else if p.rightLaneBlocked && !p.leftLaneBlocked then VeerLeft
    else if p.leftLaneBlocked && !p.rightLaneBlocked then VeerRight
    else Straight
  }

  /** MoveInDirection's decision: the avoidance choice when avoidance is enabled, otherwise straight on. */
  function SteerFor(enableCollisionAvoidance: bool, p: Probes): (r: Steer)
    ensures !enableCollisionAvoidance ==> r == Straight
    ensures r == TurnRight || r == TurnLeft || r == Reverse ==> enableCollisionAvoidance && ArcadeAhead(p)
    ensures enableCollisionAvoidance && ArcadeAhead(p) ==>
      && (r == TurnRight <==> p.rightClear)
      && (r == TurnLeft <==> !p.rightClear && p.leftClear)
      && (r == Reverse <==> !p.rightClear && !p.leftClear)
    ensures enableCollisionAvoidance && !ArcadeAhead(p) ==>
      && (r == VeerLeft <==> p.rightLaneBlocked && !p.leftLaneBlocked)
      && (r == VeerRight <==> p.leftLaneBlocked && !p.rightLaneBlocked)
    ensures enableCollisionAvoidance && !ArcadeAhead(p) ==> (r == Straight <==> p.rightLaneBlocked == p.leftLaneBlocked)
  {
    if enableCollisionAvoidance then AvoidanceChoice(p) else Straight
  }

  /** MoveInDirection's position update: a step of speed * dt along the direction, then pinned to the ground. */
  function MoveInDirection(position: Vec3, direction: Vec3, speed: real, dt: real): (r: Vec3)
    ensures r.y == GroundHeight
    ensures r.x - position.x == speed * dt * direction.x && r.z - position.z == speed * dt * direction.z
  {
    Vec3(position.x + direction.x * speed * dt, GroundHeight, position.z + direction.z * speed * dt)
  }
}
