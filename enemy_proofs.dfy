/**
 * Properties of the adversary's frame step (module EnemyRules): the sighting
 * rule, confirmation hysteresis, chase/search/capture transitions, waypoint
 * cycling, the distance-escape timer and the one-shot terminal latch, first
 * for one frame and then for any sequence of frames.
 */
module EnemyProofs {
  import opened Scene
  import opened EnemyRules

  // ---------------------------------------------------------------------------
  // One frame

  /** Every frame keeps the field invariant; in particular Attacking is never left behind. */
  lemma StepKeepsConsistent(c: Config, s: Npc, f: Frame)
    requires Consistent(c, s)
    ensures Consistent(c, Step(c, s, f).npc)
    ensures Step(c, s, f).npc.currentState != Attacking
  {
    if !s.gameIsOver && f.playerPresent {
      var detected := Detect(c, s, f);
      DetectKeepsConsistent(c, s, f);
      var behaved := Behave(c, detected, f);
      BehaveKeepsConsistent(c, detected, f);
      TrackEscapeKeepsConsistent(c, behaved.npc, f.dt, f.distanceAfterMove);
    }
  }

  lemma DetectKeepsConsistent(c: Config, s: Npc, f: Frame)
    requires Consistent(c, s)
    ensures Consistent(c, Detect(c, s, f))
  {
  }

  lemma BehaveKeepsConsistent(c: Config, s: Npc, f: Frame)
    requires Consistent(c, s)
    ensures Consistent(c, Behave(c, s, f).npc)
  {
    match s.currentState
    case Patrolling =>
      if |c.patrolPoints| > 0 && !c.randomPatrol {
        assert Behave(c, s, f) == WaypointPatrol(c, s, f);
      } else {
        assert Behave(c, s, f) == Wander(c, s, f);
      }
    case Chasing =>
      assert Behave(c, s, f) == Chase(c, s, f);
    case Searching =>
      assert Behave(c, s, f) == Search(c, s, f);
    case _ =>
  }

  lemma TrackEscapeKeepsConsistent(c: Config, s: Npc, dt: real, d: real)
    requires Consistent(c, s)
    ensures Consistent(c, TrackEscape(c, s, dt, d).npc)
  {
  }

  /** Once the round is over, a frame changes nothing and schedules nothing. */
  lemma FrozenOnceOver(c: Config, s: Npc, f: Frame)
    requires IndexInRange(c, s)
    requires s.gameIsOver || !f.playerPresent
    ensures Step(c, s, f) == Outcome(s, Hold, Quiet)
  {
  }

  /** A frame schedules a callback exactly when it ends the round, and the latch never reopens. */
  lemma SignalIffRoundEnds(c: Config, s: Npc, f: Frame)
    requires IndexInRange(c, s)
    ensures s.gameIsOver ==> Step(c, s, f).npc.gameIsOver
    ensures Step(c, s, f).signal != Quiet <==> !s.gameIsOver && Step(c, s, f).npc.gameIsOver
    ensures Step(c, s, f).signal != Quiet ==> Step(c, s, f).npc.currentState == GameOver
  {
  }

  /**
   * The sighting flag is recomputed only on a due check, and then it holds
   * exactly when the player is in range, inside half the view angle, on a
   * clear line and not concealed.
   */
  lemma SightingRule(c: Config, s: Npc, f: Frame)
    requires IndexInRange(c, s)
    requires !s.gameIsOver && f.playerPresent
    ensures f.time - s.lastDetectionCheck >= DetectionCheckInterval ==>
      (Step(c, s, f).npc.hasLineOfSight <==>
        f.distance <= c.detectionRange && f.angle <= c.detectionAngle * 0.5 && f.clearLine && !f.hidden)
    ensures f.time - s.lastDetectionCheck < DetectionCheckInterval ==>
      Step(c, s, f).npc.hasLineOfSight == s.hasLineOfSight
  {
  }

  /**
   * A first sighting while patrolling or searching only arms the confirmation
   * delay: the state stays, the timer starts from zero and the player's
   * position is recorded.
   */
  lemma FirstSightingOnlyArms(c: Config, s: Npc, f: Frame)
    requires Consistent(c, s)
    requires s.currentState == Patrolling || s.currentState == Searching
    requires !s.isInDetectionDelay
    requires s.currentState == Searching ==> c.detectionDelay > 0.0
    requires f.time - s.lastDetectionCheck >= DetectionCheckInterval && Sees(c, f)
    ensures Pursue(c, s, f).npc.currentState == s.currentState
    ensures Pursue(c, s, f).npc.isInDetectionDelay && Pursue(c, s, f).npc.detectionTimer == 0.0
    ensures Pursue(c, s, f).npc.lastPlayerPosition == f.playerPosition
  {
  }

  /**
   * A chase starts only from a pending confirmation whose timer, with this
   * frame's time added, has reached detectionDelay; starting it clears the
   * pending flag.
   */
  lemma ChaseNeedsConfirmation(c: Config, s: Npc, f: Frame)
    requires Consistent(c, s)
    requires s.currentState == Searching ==> c.detectionDelay > 0.0
    requires s.currentState != Chasing && Step(c, s, f).npc.currentState == Chasing
    ensures s.isInDetectionDelay && s.detectionTimer + f.dt >= c.detectionDelay
    ensures !Step(c, s, f).npc.isInDetectionDelay
  {
    var detected := Detect(c, s, f);
    DetectConfirmation(c, s, f);
    BehaveConfirmation(c, detected, f);
  }

  /**
   * The converse: a sighting on a due check, with a confirmation pending whose
   * timer plus this frame's time has reached detectionDelay, starts the chase
   * and clears the pending flag, unless the player is already within reach.
   */
  lemma ConfirmedSightingStartsChase(c: Config, s: Npc, f: Frame)
    requires Consistent(c, s)
    requires s.currentState == Patrolling || s.currentState == Searching
    requires s.isInDetectionDelay && s.detectionTimer + f.dt >= c.detectionDelay
    requires f.time - s.lastDetectionCheck >= DetectionCheckInterval && Sees(c, f)
    requires f.distance > c.captureDistance
    ensures Pursue(c, s, f).npc.currentState == Chasing && !Pursue(c, s, f).npc.isInDetectionDelay
  {
  }

  /**
   * The confirmation timer advances by exactly the frame time while a
   * confirmation stays pending, and otherwise only keeps its value or
   * restarts from zero.
   */
  lemma DetectionTimerRunsOnlyWhilePending(c: Config, s: Npc, f: Frame)
    requires IndexInRange(c, s)
    ensures s.isInDetectionDelay && Step(c, s, f).npc.isInDetectionDelay && !s.gameIsOver && f.playerPresent ==>
      Step(c, s, f).npc.detectionTimer == s.detectionTimer + f.dt
    ensures !s.isInDetectionDelay ==>
      Step(c, s, f).npc.detectionTimer == s.detectionTimer || Step(c, s, f).npc.detectionTimer == 0.0
  {
    if !s.gameIsOver && f.playerPresent {
      var detected := Detect(c, s, f);
      DetectConfirmation(c, s, f);
      BehaveConfirmation(c, detected, f);
    }
  }

  /** How UpdateDetection moves the confirmation clock and when it starts a chase. */
  lemma DetectConfirmation(c: Config, s: Npc, f: Frame)
    ensures var d := Detect(c, s, f);
      && (s.isInDetectionDelay && d.isInDetectionDelay ==> d.detectionTimer == s.detectionTimer + f.dt)
      && (!s.isInDetectionDelay && d.isInDetectionDelay ==> d.detectionTimer == 0.0)
      && (!s.isInDetectionDelay ==> d.detectionTimer == s.detectionTimer || d.detectionTimer == 0.0)
      && (s.isInDetectionDelay && !d.isInDetectionDelay ==>
            d.detectionTimer == s.detectionTimer + f.dt || d.detectionTimer == 0.0)
      && (s.currentState != Chasing && d.currentState == Chasing ==>
            s.isInDetectionDelay && s.detectionTimer + f.dt >= c.detectionDelay && !d.isInDetectionDelay)
      && (d.currentState == Searching ==> s.currentState == Searching || s.currentState == Chasing)
      && (d.currentState == Patrolling ==> s.currentState == Patrolling)
  {
  }

  /** How the state handlers move the confirmation clock and when they start a chase. */
  lemma BehaveConfirmation(c: Config, s: Npc, f: Frame)
    requires IndexInRange(c, s)
    ensures var b := Behave(c, s, f).npc;
      && (s.isInDetectionDelay && b.isInDetectionDelay ==> b.detectionTimer == s.detectionTimer)
      && (!s.isInDetectionDelay && b.isInDetectionDelay ==> b.detectionTimer == 0.0)
      && (!s.isInDetectionDelay ==> b.detectionTimer == s.detectionTimer || b.detectionTimer == 0.0)
      && (s.isInDetectionDelay && !b.isInDetectionDelay ==> b.detectionTimer == s.detectionTimer)
      && (s.currentState != Chasing && b.currentState == Chasing ==>
            && s.currentState == Searching && !b.isInDetectionDelay
            && (if s.isInDetectionDelay then s.detectionTimer >= c.detectionDelay else 0.0 >= c.detectionDelay))
  {
    match s.currentState
    case Patrolling =>
      if |c.patrolPoints| > 0 && !c.randomPatrol {
        assert Behave(c, s, f) == WaypointPatrol(c, s, f);
      } else {
        assert Behave(c, s, f) == Wander(c, s, f);
      }
    case Chasing =>
      assert Behave(c, s, f) == Chase(c, s, f);
    case Searching =>
      assert Behave(c, s, f) == Search(c, s, f);
    case _ =>
  }

  /** A due check that does not see the player, outside a chase, cancels a pending confirmation. */
  lemma MissedSightingCancels(c: Config, s: Npc, f: Frame)
    requires Consistent(c, s)
    requires s.currentState == Patrolling || s.currentState == Searching
    requires s.isInDetectionDelay
    requires f.playerPresent && f.time - s.lastDetectionCheck >= DetectionCheckInterval && !Sees(c, f)
    ensures !Step(c, s, f).npc.isInDetectionDelay && Step(c, s, f).npc.detectionTimer == 0.0
  {
  }

  /**
   * A chase turns into a search only when the player is unseen and strictly
   * beyond loseTargetRange; the search clock restarts at zero, and the
   * search handler may already add this frame's time.
   */
  lemma SearchOnlyBeyondLoseRange(c: Config, s: Npc, f: Frame)
    requires Consistent(c, s) && s.currentState == Chasing
    requires Step(c, s, f).npc.currentState == Searching
    ensures !Step(c, s, f).npc.hasLineOfSight && f.distance > c.loseTargetRange
    ensures Step(c, s, f).npc.searchTimer == 0.0 || Step(c, s, f).npc.searchTimer == f.dt
  {
  }

  /** Conversely, an unseen player beyond loseTargetRange and out of reach ends the chase. */
  lemma UnseenBeyondLoseRangeStartsSearch(c: Config, s: Npc, f: Frame)
    requires Consistent(c, s) && s.currentState == Chasing
    requires !Detect(c, s, f).hasLineOfSight
    requires f.distance > c.loseTargetRange && f.distance > c.captureDistance
    requires 0.0 <= f.dt < SearchDuration
    ensures Pursue(c, s, f).npc.currentState == Searching
    ensures Pursue(c, s, f).npc.searchTimer <= f.dt
  {
  }

  /** Within loseTargetRange and out of reach the chase goes on, whatever the sighting flag does. */
  lemma ChaseHoldsWithinLoseRange(c: Config, s: Npc, f: Frame)
    requires Consistent(c, s) && s.currentState == Chasing
    requires c.captureDistance < f.distance <= c.loseTargetRange
    ensures Pursue(c, s, f).npc.currentState == Chasing
    ensures Pursue(c, s, f).motion == Toward(f.playerPosition, c.chaseSpeed)
  {
  }

  /** A search is abandoned for patrolling exactly when searchDuration has run out with the player unseen. */
  lemma SearchGivesUp(c: Config, s: Npc, f: Frame)
    requires Consistent(c, s) && s.currentState == Searching
    ensures Pursue(c, s, f).npc.currentState == Patrolling <==>
      !Detect(c, s, f).hasLineOfSight && s.searchTimer + f.dt >= SearchDuration
  {
  }

  /** Reaching the player during a chase ends the round as a capture, within the same frame. */
  lemma CaptureEndsRound(c: Config, s: Npc, f: Frame)
    requires Consistent(c, s) && s.currentState == Chasing && f.playerPresent
    requires f.distance <= c.captureDistance
    requires !(f.time - s.lastDetectionCheck >= DetectionCheckInterval && !Sees(c, f) && f.distance > c.loseTargetRange)
    ensures Step(c, s, f).npc.currentState == GameOver && Step(c, s, f).npc.gameIsOver
    ensures Step(c, s, f).signal == Caught
  {
  }

  /**
   * Waypoint patrol: the index moves to the next waypoint, cyclically, exactly
   * when the adversary has dwelt at the current one for patrolWaitTime, and
   * the dwell timer then restarts at zero.
   */
  lemma WaypointAdvance(c: Config, s: Npc, f: Frame)
    requires Consistent(c, s) && |c.patrolPoints| > 0 && !c.randomPatrol
    requires Detect(c, s, f).currentState == Patrolling
    ensures var r := Pursue(c, s, f).npc;
      var advance := f.waypointDistance <= ArrivalRadius && s.patrolTimer + f.dt >= c.patrolWaitTime;
      && 0 <= r.currentPatrolIndex < |c.patrolPoints|
      && r.currentPatrolIndex == (if advance then (s.currentPatrolIndex + 1) % |c.patrolPoints| else s.currentPatrolIndex)
      && (advance ==> r.patrolTimer == 0.0)
    ensures f.waypointDistance > ArrivalRadius ==>
      && Pursue(c, s, f).npc.patrolTimer == s.patrolTimer
      && Pursue(c, s, f).motion == Toward(c.patrolPoints[s.currentPatrolIndex], c.patrolSpeed)
    ensures f.waypointDistance <= ArrivalRadius && s.patrolTimer + f.dt < c.patrolWaitTime ==>
      && Pursue(c, s, f).npc.patrolTimer == s.patrolTimer + f.dt
      && Pursue(c, s, f).motion == Hold
  {
  }

  /**
   * Wandering: on arrival within ArrivalRadius, once the dwell plus this
   * frame's time reaches patrolWaitTime, the next drawn point (pinned to the
   * ground) becomes the target and the dwell restarts at zero; farther away
   * the adversary walks to its target with dwell and target held; otherwise
   * it holds still while the dwell grows by exactly dt.
   */
  lemma WanderAdvance(c: Config, s: Npc, f: Frame)
    requires Consistent(c, s) && (|c.patrolPoints| == 0 || c.randomPatrol)
    requires Detect(c, s, f).currentState == Patrolling
    ensures f.wanderDistance <= ArrivalRadius && s.patrolTimer + f.dt >= c.patrolWaitTime ==>
      && Pursue(c, s, f).npc.randomPatrolTarget == Grounded(f.nextWanderTarget)
      && Pursue(c, s, f).npc.patrolTimer == 0.0
      && Pursue(c, s, f).motion == Hold
    ensures f.wanderDistance > ArrivalRadius ==>
      && Pursue(c, s, f).npc.patrolTimer == s.patrolTimer
      && Pursue(c, s, f).npc.randomPatrolTarget == s.randomPatrolTarget
      && Pursue(c, s, f).motion == Toward(s.randomPatrolTarget, c.patrolSpeed)
    ensures f.wanderDistance <= ArrivalRadius && s.patrolTimer + f.dt < c.patrolWaitTime ==>
      && Pursue(c, s, f).npc.patrolTimer == s.patrolTimer + f.dt
      && Pursue(c, s, f).npc.randomPatrolTarget == s.randomPatrolTarget
      && Pursue(c, s, f).motion == Hold
  {
  }

  /**
   * The dwell timer moves only in a frame whose patrol handler runs: a frame
   * that chases or searches leaves it as it was, so the dwell carries over a
   * chase or a search.
   */
  lemma PatrolTimerHeldOutsidePatrol(c: Config, s: Npc, f: Frame)
    requires Consistent(c, s)
    requires s.gameIsOver || !f.playerPresent || Detect(c, s, f).currentState != Patrolling
    ensures Step(c, s, f).npc.patrolTimer == s.patrolTimer
  {
  }

  /** Distance escape, while the player is at or beyond escapeDistance: the timer accumulates the frame time. */
  lemma EscapeTimerAccumulates(c: Config, s: Npc, dt: real, d: real)
    requires c.enableEscapeByDistance && d >= c.escapeDistance
    ensures TrackEscape(c, s, dt, d).npc.isPlayerEscaping
    ensures TrackEscape(c, s, dt, d).npc.escapeTimer == (if s.isPlayerEscaping then s.escapeTimer else 0.0) + dt
  {
  }

  /** Coming back inside escapeDistance drops the escape and resets its timer to exactly zero. */
  lemma EscapeTimerResets(c: Config, s: Npc, dt: real, d: real)
    requires c.enableEscapeByDistance || c.enableEscapeByTime
    requires !(c.enableEscapeByDistance && d >= c.escapeDistance)
    requires !s.isPlayerEscaping ==> s.escapeTimer == 0.0
    ensures !TrackEscape(c, s, dt, d).npc.isPlayerEscaping && TrackEscape(c, s, dt, d).npc.escapeTimer == 0.0
    ensures TrackEscape(c, s, dt, d).signal == Quiet
  {
  }

  /**
   * The escape fires exactly when the round is still on, distance escape is
   * enabled, the player is at or beyond escapeDistance and, if time gating is
   * on, the timer has reached escapeTime.
   */
  lemma EscapeFiresWhen(c: Config, s: Npc, dt: real, d: real)
    ensures TrackEscape(c, s, dt, d).signal == Escaped <==>
      && !s.gameIsOver && c.enableEscapeByDistance && d >= c.escapeDistance
      && (!c.enableEscapeByTime || TrackEscape(c, s, dt, d).npc.escapeTimer >= c.escapeTime)
    ensures TrackEscape(c, s, dt, d).signal != Caught
  {
  }

  // ---------------------------------------------------------------------------
  // Sequences of frames

  /** The fields after a sequence of frames. */
  function Run(c: Config, s: Npc, fs: seq<Frame>): (r: Npc)
    requires Consistent(c, s)
    ensures Consistent(c, r)
    decreases |fs|
  {
    if fs == [] then s
    else
      StepKeepsConsistent(c, s, fs[0]);
      Run(c, Step(c, s, fs[0]).npc, fs[1..])
  }

  /** How many callbacks a sequence of frames schedules. */
  function Signals(c: Config, s: Npc, fs: seq<Frame>): nat
    requires Consistent(c, s)
    decreases |fs|
  {
    if fs == [] then 0
    else
      StepKeepsConsistent(c, s, fs[0]);
      (if Step(c, s, fs[0]).signal != Quiet then 1 else 0) + Signals(c, Step(c, s, fs[0]).npc, fs[1..])
  }

  /** The engine time a sequence of frames covers. */
  function Elapsed(fs: seq<Frame>): real
    decreases |fs|
  {
    if fs == [] then 0.0 else fs[0].dt + Elapsed(fs[1..])
  }

  predicate NonNegativeSteps(fs: seq<Frame>) {
    forall i :: 0 <= i < |fs| ==> fs[i].dt >= 0.0
  }

  /** Once the round is over, no sequence of frames changes anything or schedules anything. */
  lemma {:induction false} RunFrozen(c: Config, s: Npc, fs: seq<Frame>)
    requires Consistent(c, s) && s.gameIsOver
    ensures Run(c, s, fs) == s && Signals(c, s, fs) == 0
    decreases |fs|
  {
    if fs != [] {
      FrozenOnceOver(c, s, fs[0]);
      RunFrozen(c, s, fs[1..]);
    }
  }

  /**
   * The terminal outcome is delivered at most once per round: a sequence of
   * frames schedules one callback if it ends the round and none otherwise,
   * even when capture and escape become possible in the same frame.
   */
  lemma {:induction false} AtMostOneSignal(c: Config, s: Npc, fs: seq<Frame>)
    requires Consistent(c, s)
    ensures Signals(c, s, fs) == if !s.gameIsOver && Run(c, s, fs).gameIsOver then 1 else 0
    ensures s.gameIsOver ==> Run(c, s, fs).gameIsOver
    decreases |fs|
  {
    if fs != [] {
      var next := Step(c, s, fs[0]);
      StepKeepsConsistent(c, s, fs[0]);
      SignalIffRoundEnds(c, s, fs[0]);
      AtMostOneSignal(c, next.npc, fs[1..]);
      if next.npc.gameIsOver {
        RunFrozen(c, next.npc, fs[1..]);
      }
    }
  }

  /**
   * The confirmation clock never runs ahead of engine time, and a chase has
   * been reached only after at least detectionDelay of it.
   */
  ghost predicate ConfirmationBound(c: Config, s: Npc, elapsed: real) {
    && (s.isInDetectionDelay ==> s.detectionTimer <= elapsed)
    && (s.currentState == Chasing ==> elapsed >= c.detectionDelay)
  }

  lemma StepKeepsConfirmationBound(c: Config, s: Npc, f: Frame, elapsed: real)
    requires Consistent(c, s) && elapsed >= 0.0 && f.dt >= 0.0
    requires ConfirmationBound(c, s, elapsed)
    ensures ConfirmationBound(c, Step(c, s, f).npc, elapsed + f.dt)
  {
    if !s.gameIsOver && f.playerPresent {
      var detected := Detect(c, s, f);
      DetectConfirmation(c, s, f);
      BehaveConfirmation(c, detected, f);
      assert ConfirmationBound(c, detected, elapsed + f.dt);
    }
  }

  lemma {:induction false} RunKeepsConfirmationBound(c: Config, s: Npc, fs: seq<Frame>, elapsed: real)
    requires Consistent(c, s) && elapsed >= 0.0 && NonNegativeSteps(fs)
    requires ConfirmationBound(c, s, elapsed)
    ensures ConfirmationBound(c, Run(c, s, fs), elapsed + Elapsed(fs))
    decreases |fs|
  {
    if fs != [] {
      StepKeepsConfirmationBound(c, s, fs[0], elapsed);
      StepKeepsConsistent(c, s, fs[0]);
      RunKeepsConfirmationBound(c, Step(c, s, fs[0]).npc, fs[1..], elapsed + fs[0].dt);
    }
  }

  /**
   * Starting without a pending confirmation and not chasing, any sequence of
   * frames that ends in a chase covers at least detectionDelay seconds of
   * engine time.
   */
  lemma ChaseOnlyAfterDetectionDelay(c: Config, s: Npc, fs: seq<Frame>)
    requires Consistent(c, s) && NonNegativeSteps(fs)
    requires s.currentState != Chasing && !s.isInDetectionDelay
    requires Run(c, s, fs).currentState == Chasing
    ensures Elapsed(fs) >= c.detectionDelay
  {
    RunKeepsConfirmationBound(c, s, fs, 0.0);
  }

  // ---------------------------------------------------------------------------
  // The distance-escape timer over a sequence of readings

  /** What CheckEscapeConditions reads in a frame: the frame time and the distance after moving. */
  datatype EscapeReading = EscapeReading(dt: real, distance: real)

  /** The escape-tracker fields after a sequence of readings, oldest first. */
  function EscapeRun(c: Config, s: Npc, rs: seq<EscapeReading>): Npc
    decreases |rs|
  {
    if rs == [] then s
    else
      var before := EscapeRun(c, s, rs[..|rs| - 1]);
      TrackEscape(c, before, rs[|rs| - 1].dt, rs[|rs| - 1].distance).npc
  }

  predicate Beyond(c: Config, r: EscapeReading) {
    r.distance >= c.escapeDistance
  }

  /** The time covered by the latest uninterrupted stretch of readings at or beyond escapeDistance. */
  function TrailingStreak(c: Config, rs: seq<EscapeReading>): real
    decreases |rs|
  {
    if rs == [] || !Beyond(c, rs[|rs| - 1]) then 0.0
    else TrailingStreak(c, rs[..|rs| - 1]) + rs[|rs| - 1].dt
  }

  /**
   * No partial credit survives an interruption: starting with no escape under
   * way, the escape timer always equals the length of the current stretch at
   * or beyond escapeDistance, and an escape is under way exactly when the
   * latest reading is beyond it.
   */
  lemma {:induction false} EscapeTimerIsTrailingStreak(c: Config, s: Npc, rs: seq<EscapeReading>)
    requires c.enableEscapeByDistance
    requires !s.isPlayerEscaping && s.escapeTimer == 0.0
    ensures EscapeRun(c, s, rs).escapeTimer == TrailingStreak(c, rs)
    ensures EscapeRun(c, s, rs).isPlayerEscaping <==> rs != [] && Beyond(c, rs[|rs| - 1])
    decreases |rs|
  {
    if rs != [] {
      EscapeTimerIsTrailingStreak(c, s, rs[..|rs| - 1]);
    }
  }
}
