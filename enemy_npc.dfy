/**
 * The adversary (EnemyNPC) as an object whose per-frame methods update its
 * fields step by step. Every method states its new fields as the matching
 * function of module EnemyRules applied to the old ones; the properties of
 * those functions are proved in module EnemyProofs.
 */
module Enemy {
  import opened Scene
  import opened EnemyRules
  import opened EnemyProofs

  class EnemyNpc {
    const settings: Config

    var currentState: EnemyState
    var currentPatrolIndex: int
    var patrolTimer: real
    var randomPatrolTarget: Vec3
    var lastPlayerPosition: Vec3
    var searchTimer: real
    var escapeTimer: real
    var isPlayerEscaping: bool
    var lastDetectionCheck: real
    var detectionTimer: real
    var isInDetectionDelay: bool
    var hasLineOfSight: bool
    var gameIsOver: bool

    /** The fields as one value. */
    function Snapshot(): Npc
      reads this
    {
      Npc(currentState, currentPatrolIndex, patrolTimer, randomPatrolTarget, lastPlayerPosition,
          searchTimer, escapeTimer, isPlayerEscaping, lastDetectionCheck, detectionTimer,
          isInDetectionDelay, hasLineOfSight, gameIsOver)
    }

    ghost predicate Valid()
      reads this
    {
      Consistent(settings, Snapshot())
    }

    /** Start: patrolling with every timer at zero; a first wander point when wandering without waypoints. */
    constructor (settings: Config, firstWanderTarget: Vec3)
      ensures this.settings == settings
      ensures Snapshot() == Initial(settings, firstWanderTarget)
      ensures Valid()
    {
      this.settings := settings;
      currentState := Patrolling;
      currentPatrolIndex := 0;
      patrolTimer := 0.0;
      randomPatrolTarget := Vec3(0.0, 0.0, 0.0);
      lastPlayerPosition := Vec3(0.0, 0.0, 0.0);
      searchTimer := 0.0;
      escapeTimer := 0.0;
      isPlayerEscaping := false;
      lastDetectionCheck := 0.0;
      detectionTimer := 0.0;
      isInDetectionDelay := false;
      hasLineOfSight := false;
      gameIsOver := false;
      new;
      ChangeState(Patrolling);
      if settings.randomPatrol && |settings.patrolPoints| == 0 {
        GenerateRandomPatrolTarget(firstWanderTarget);
      }
    }

    method ChangeState(s: EnemyState)
      modifies this`currentState
      ensures currentState == s
    {
      if currentState != s {
        currentState := s;
      }
    }

    /** The random draw is a parameter; the point is moved to ground height. */
    method GenerateRandomPatrolTarget(drawn: Vec3)
      modifies this`randomPatrolTarget
      ensures randomPatrolTarget == Grounded(drawn)
    {
      randomPatrolTarget := drawn;
      randomPatrolTarget := randomPatrolTarget.(y := GroundHeight);
    }

    /** Update: one frame of detection, state behaviour and escape tracking. */
    method Update(f: Frame) returns (motion: Motion, signal: Signal)
      requires Valid()
      modifies this
      ensures Valid()
      ensures Snapshot() == Step(settings, old(Snapshot()), f).npc
      ensures motion == Step(settings, old(Snapshot()), f).motion
      ensures signal == Step(settings, old(Snapshot()), f).signal
    {
      motion, signal := Hold, Quiet;
      if gameIsOver || !f.playerPresent {
        return;
      }
      UpdateDetection(f);
      motion, signal := UpdateStateBehavior(f);
      var escaped := CheckEscapeConditions(f.dt, f.distanceAfterMove);
      if signal == Quiet {
        signal := escaped;
      }
      StepKeepsConsistent(settings, old(Snapshot()), f);
    }

    method UpdateDetection(f: Frame)
      modifies this
      ensures Snapshot() == Detect(settings, old(Snapshot()), f)
    {
      if isInDetectionDelay {
        detectionTimer := detectionTimer + f.dt;
      }
      if f.time - lastDetectionCheck < DetectionCheckInterval {
        return;
      }
      lastDetectionCheck := f.time;

      var dist := f.distance;
      var playerIsHidden := f.hidden;
      var inRange := dist <= settings.detectionRange;
      var inFov := f.angle <= settings.detectionAngle * 0.5;
      var directLoS := f.clearLine;
      hasLineOfSight := inRange && inFov && directLoS && !playerIsHidden;

      if currentState != Attacking && currentState != GameOver {
        if hasLineOfSight && (currentState == Patrolling || currentState == Searching) {
          OnPlayerDetected(f.playerPosition);
        } else if !hasLineOfSight && currentState == Chasing {
          if dist > settings.loseTargetRange {
            OnPlayerLost();
          }
        } else if !hasLineOfSight && isInDetectionDelay {
          isInDetectionDelay := false;
          detectionTimer := 0.0;
        }
      }
    }

    method UpdateStateBehavior(f: Frame) returns (motion: Motion, signal: Signal)
      requires IndexInRange(settings, Snapshot())
      modifies this
      ensures Snapshot() == Behave(settings, old(Snapshot()), f).npc
      ensures motion == Behave(settings, old(Snapshot()), f).motion
      ensures signal == Behave(settings, old(Snapshot()), f).signal
    {
      var distanceToPlayer := f.distance;
      motion, signal := Hold, Quiet;
      match currentState {
        case Patrolling =>
          motion := HandlePatrolling(f);
        case Chasing =>
          motion, signal := HandleChasing(f, distanceToPlayer);
        case Searching =>
          motion := HandleSearching(f);
        case _ =>
      }
    }

    method HandlePatrolling(f: Frame) returns (motion: Motion)
      requires IndexInRange(settings, Snapshot())
      modifies this
      ensures Snapshot() == Patrol(settings, old(Snapshot()), f).npc
      ensures motion == Patrol(settings, old(Snapshot()), f).motion
    {
      if |settings.patrolPoints| > 0 && !settings.randomPatrol {
        motion := PatrolBetweenPoints(f);
      } else {
        motion := RandomPatrol(f);
      }
    }

    method HandleChasing(f: Frame, distanceToPlayer: real) returns (motion: Motion, signal: Signal)
      requires distanceToPlayer == f.distance
      modifies this
      ensures Snapshot() == Chase(settings, old(Snapshot()), f).npc
      ensures motion == Chase(settings, old(Snapshot()), f).motion
      ensures signal == Chase(settings, old(Snapshot()), f).signal
    {
      motion, signal := Hold, Quiet;
      if distanceToPlayer <= settings.captureDistance {
        signal := CapturePlayer();
        return;
      }
      if !hasLineOfSight && distanceToPlayer > settings.loseTargetRange {
        OnPlayerLost();
        return;
      }
      motion := ChasePlayer(f.playerPosition);
    }

    method HandleSearching(f: Frame) returns (motion: Motion)
      modifies this
      ensures Snapshot() == Search(settings, old(Snapshot()), f).npc
      ensures motion == Search(settings, old(Snapshot()), f).motion
    {
      motion := Hold;
      searchTimer := searchTimer + f.dt;
      if hasLineOfSight {
        OnPlayerDetected(f.playerPosition);
        return;
      }
      if searchTimer >= SearchDuration {
        ChangeState(Patrolling);
        return;
      }
      motion := SearchLastPosition(f);
    }

    method OnPlayerDetected(playerPosition: Vec3)
      modifies this
      ensures Snapshot() == Confirm(settings, old(Snapshot()), playerPosition)
    {
      lastPlayerPosition := playerPosition;
      if !isInDetectionDelay {
        isInDetectionDelay := true;
        detectionTimer := 0.0;
        return;
      }
      if detectionTimer >= settings.detectionDelay {
        ChangeState(Chasing);
        isInDetectionDelay := false;
      }
    }

    method OnPlayerLost()
      modifies this
      ensures Snapshot() == LoseTarget(old(Snapshot()))
    {
      ChangeState(Searching);
      searchTimer := 0.0;
    }

    /** CapturePlayer; the coroutine runs synchronously up to its wait, so the round is over on return. */
    method CapturePlayer() returns (signal: Signal)
      modifies this
      ensures Snapshot() == Capture(old(Snapshot())).npc
      ensures signal == Capture(old(Snapshot())).signal
    {
      signal := Quiet;
      if gameIsOver {
        return;
      }
      ChangeState(Attacking);
      GameOverSequence();
      signal := Caught;
    }

    /** The part of GameOverSequence before its wait; the delayed game-over callback is the Caught signal. */
    method GameOverSequence()
      modifies this
      ensures Snapshot() == old(Snapshot()).(gameIsOver := true, currentState := GameOver)
    {
      gameIsOver := true;
      ChangeState(GameOver);
    }

    /** ChasePlayer: step toward the player at chase speed and remember where it was seen. */
    method ChasePlayer(playerPosition: Vec3) returns (motion: Motion)
      modifies this
      ensures Snapshot() == old(Snapshot()).(lastPlayerPosition := playerPosition)
      ensures motion == Toward(playerPosition, settings.chaseSpeed)
    {
      motion := Toward(playerPosition, settings.chaseSpeed);
      lastPlayerPosition := playerPosition;
    }

    /** SearchLastPosition: walk to the last-seen spot, then turn in place. */
    method SearchLastPosition(f: Frame) returns (motion: Motion)
      ensures motion == if f.searchDistance > ArrivalRadius then Toward(lastPlayerPosition, settings.patrolSpeed)
                        else Spin(SearchSpinRate * f.dt)
    {
      var dist := f.searchDistance;
      if dist > ArrivalRadius {
        motion := Toward(lastPlayerPosition, settings.patrolSpeed);
      } else {
        motion := Spin(SearchSpinRate * f.dt);
      }
    }

    method PatrolBetweenPoints(f: Frame) returns (motion: Motion)
      requires IndexInRange(settings, Snapshot())
      modifies this
      ensures Snapshot() == WaypointPatrol(settings, old(Snapshot()), f).npc
      ensures motion == WaypointPatrol(settings, old(Snapshot()), f).motion
    {
      motion := Hold;
      if |settings.patrolPoints| == 0 {
        return;
      }
      var p := settings.patrolPoints[currentPatrolIndex];
      var dist := f.waypointDistance;
      if dist > ArrivalRadius {
        motion := Toward(p, settings.patrolSpeed);
      } else {
        patrolTimer := patrolTimer + f.dt;
        if patrolTimer >= settings.patrolWaitTime {
          currentPatrolIndex := (currentPatrolIndex + 1) % |settings.patrolPoints|;
          patrolTimer := 0.0;
        }
      }
    }

    method RandomPatrol(f: Frame) returns (motion: Motion)
      modifies this
      ensures Snapshot() == Wander(settings, old(Snapshot()), f).npc
      ensures motion == Wander(settings, old(Snapshot()), f).motion
    {
      motion := Hold;
      var dist := f.wanderDistance;
      if dist > ArrivalRadius {
        motion := Toward(randomPatrolTarget, settings.patrolSpeed);
      } else {
        patrolTimer := patrolTimer + f.dt;
        if patrolTimer >= settings.patrolWaitTime {
          GenerateRandomPatrolTarget(f.nextWanderTarget);
          patrolTimer := 0.0;
        }
      }
    }

    method CheckEscapeConditions(dt: real, d: real) returns (signal: Signal)
      modifies this
      ensures Snapshot() == TrackEscape(settings, old(Snapshot()), dt, d).npc
      ensures signal == TrackEscape(settings, old(Snapshot()), dt, d).signal
    {
      signal := Quiet;
      if !settings.enableEscapeByDistance && !settings.enableEscapeByTime {
        return;
      }
      if settings.enableEscapeByDistance && d >= settings.escapeDistance {
        if !isPlayerEscaping {
          isPlayerEscaping := true;
          escapeTimer := 0.0;
        }
        escapeTimer := escapeTimer + dt;
        if settings.enableEscapeByTime && escapeTimer >= settings.escapeTime {
          signal := PlayerEscaped();
        } else if !settings.enableEscapeByTime {
          signal := PlayerEscaped();
        }
      } else if isPlayerEscaping {
        isPlayerEscaping := false;
        escapeTimer := 0.0;
      }
    }

    /** PlayerEscaped; fires at most once thanks to the gameIsOver guard. */
    method PlayerEscaped() returns (signal: Signal)
      modifies this
      ensures Snapshot() == Escape(old(Snapshot())).npc
      ensures signal == Escape(old(Snapshot())).signal
    {
      signal := Quiet;
      if gameIsOver {
        return;
      }
      gameIsOver := true;
      VictorySequence();
      signal := Escaped;
    }

    /** The part of VictorySequence before its wait; the delayed victory callback is the Escaped signal. */
    method VictorySequence()
      modifies this`currentState
      ensures currentState == GameOver
    {
      ChangeState(GameOver);
    }

    /** GetCurrentState, the query the session manager polls. */
    function GetCurrentState(): (r: EnemyState)
      reads this
      requires Valid()
      ensures r != Attacking
    {
      currentState
    }
  }
}
