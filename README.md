# Camouflage game jam — the adversary, the safe zone and the session latches

This project models the decision core of a small Unity stealth game. The player
hides from a patrolling adversary, and a round ends in one of two ways:

- the adversary catches the player, or
- the player escapes, either by staying far enough away for long enough or by
  waiting out a timer inside a safe zone.

The model covers three components:

- **EnemyNPC** (modules `EnemyRules`, `EnemyProofs` and `Enemy`). This is a
  five-state pursuit machine: Patrolling, Chasing, Searching, Attacking and
  GameOver. It has:
  - a sighting rule;
  - a confirmation delay (`isInDetectionDelay` / `detectionTimer`) that must
    run out before a chase starts;
  - chase, search and capture transitions;
  - a cyclic waypoint patrol;
  - an obstacle-avoidance decision table;
  - a distance-escape timer;
  - the one-shot terminal latch `gameIsOver`.

  `EnemyRules` states one frame of the script as pure functions over a record
  of the fields (`Npc`). `Enemy.EnemyNpc` is the class with the script's own
  fields, and each per-frame method is proved to compute the matching
  function. `EnemyProofs` proves the behavioural properties, both for one
  frame and for any sequence of frames.
- **SafeZone** (module `Zone`). This is the occupancy timer. `timeInZone`
  grows by the frame time while the player is within radius + 0.05 on the
  ground plane, and it drops to zero as soon as the player is outside. The
  win progress is that time divided by max(0.01, timeToWin), clamped to
  [0, 1].
- **GameManager** (module `Session`). This covers:
  - the `gameOver` and `victoryAchieved` latches;
  - the per-frame gate on `Update`;
  - the victory trigger in `UpdateEscapeProgress`;
  - the Attacking check in `CheckGameConditions`;
  - the minutes/seconds split of the game clock.

The engine is reduced to what the logic reads from it. Each frame, the model
receives the following as a `Frame` parameter:

- distances, and the angle between the adversary's heading and the player;
- the line-of-sight ray result and the player's concealment flag;
- `Time.time` and `Time.deltaTime`;
- the next random wander point.

The 0.15 s detection throttle is an explicit clock: `lastDetectionCheck`
against `Frame.time`.

The adversary's movement is returned as a `Motion` intent: hold, move toward a
point at a speed, or turn in place. The host applies it with
`EnemyRules.SteerFor`, `EnemyRules.AvoidanceChoice` and
`EnemyRules.MoveInDirection`, given the probe results.

Coroutines are modelled up to their first `yield`, which runs synchronously
(except that `GameOverSequence` also disables the player controller there,
which is not modelled; see "Left out"). A
capture therefore moves Attacking → GameOver and sets `gameIsOver` within the
same call. The delayed callback to GameManager (`TriggerGameOver` /
`TriggerVictory`) is returned as a `Signal`: `Caught` or `Escaped`.

Things to know when reading the model against the code:

- **Attacking is never visible between frames.** `Consistent` requires
  `currentState != Attacking` between frames, and every frame preserves it
  (`EnemyProofs.StepKeepsConsistent`). As a result, the Attacking test in
  `GameManager.CheckGameConditions` (Assets/Scripts/GameManager.cs:340) never
  fires on a state the adversary can report (`Session.AttackCheckNeverFires`).
  A capture ends the session through the delayed `TriggerGameOver` instead.
- **A search does not forget where the player was.** `lastPlayerPosition` is
  not cleared when a search is abandoned. The code at
  Assets/Scripts/EnemyNPC.cs:223 only changes the state, and the model follows
  the code.
- **Searching can confirm twice in one frame.** In Searching, a sighting calls
  `OnPlayerDetected` twice in the same frame: once from `UpdateDetection` and
  once from `HandleSearching`. With `detectionDelay <= 0` this arms the delay
  and starts the chase at once.
- **Losing the target starts the search clock in the same frame.** When the
  target is lost in `UpdateDetection`, `HandleSearching` runs in the same
  frame and already adds that frame's time. So a new search starts with
  `searchTimer` equal to 0 or dt.
- **The side called "right" is on the left.** The avoidance "right" direction
  is `Vector3.Cross(direction, Vector3.up)`. In Unity's left-handed frame this
  points to the adversary's left. The model keeps the source's names
  (`TurnRight` means "along Cross(direction, up)").
- **Both latches can end up set, but not in one frame.** In a GameManager
  frame `UpdateEscapeProgress` runs before `CheckGameConditions`, and the two
  latches are independent, so `Session.Tick` as a function allows one frame
  to set both. In the program that never happens: the Attacking branch of
  `CheckGameConditions` never fires (`Session.AttackCheckNeverFires`). Both
  latches are set only when the safe-zone victory comes first and the
  adversary's delayed `TriggerGameOver` arrives in a later frame; neither
  trigger checks the other latch (Assets/Scripts/GameManager.cs:345-359). The
  reverse order cannot happen: once `gameOver` is set, `Update` returns early,
  so the victory check never runs again (`Session.LatchesHold`), and the
  adversary schedules at most one callback (`EnemyProofs.AtMostOneSignal`).
  Even that late `TriggerGameOver` arrives only if the adversary's
  `WaitForSeconds(gameOverDelay)` ends before `ShowVictoryPanel` sets
  `Time.timeScale` to 0 (Assets/Scripts/GameManager.cs:368-374); that timing
  is not modelled.
- **The patrol dwell is not reset by a chase or a search.** `patrolTimer` is
  written only by the patrol handlers (Assets/Scripts/EnemyNPC.cs:304-344).
  A frame that chases or searches leaves it unchanged
  (`EnemyProofs.PatrolTimerHeldOutsidePatrol`), so the dwell at a waypoint
  adds up across interruptions.

## Model

| member | source | states |
|---|---|---|
| `EnemyRules.Detect` | Assets/Scripts/EnemyNPC.cs:164-191 | UpdateDetection never touches the patrol index, patrol timer, wander target, escape fields or terminal latch |
| `EnemyRules.ToLower` | Assets/Scripts/EnemyNPC.cs:388 | lowercasing keeps the length and maps every character through the ASCII case fold |
| `EnemyRules.Contains` | Assets/Scripts/EnemyNPC.cs:389 | the substring scan answers true exactly when the word occurs contiguously in the name |
| `EnemyRules.ContainsScan` | Assets/Scripts/EnemyNPC.cs:389 | one step of the scan: a word occurs in s iff it is a prefix of s or occurs in s without its first character |
| `EnemyRules.IsArcadeMachine` | Assets/Scripts/EnemyNPC.cs:386-390 | an object counts as an arcade machine iff its lowercased name contains "maquina", "arcade" or "machine" |
| `EnemyRules.SteerFor` | Assets/Scripts/EnemyNPC.cs:354-357 | with avoidance disabled the direction is kept; with it enabled and an arcade machine ahead, turn along Cross iff that side is clear, else the other side iff clear, else reverse; with it enabled and no machine ahead, veer left iff only the right lane is blocked, veer right iff only the left lane is blocked, and keep the direction iff both or neither are blocked |
| `EnemyRules.AvoidanceChoice` | Assets/Scripts/EnemyNPC.cs:363-384 | forward hit on an arcade machine: turn to the Cross side iff clear, else the other side iff clear, else reverse; otherwise veer away from exactly one blocked lane, and keep the direction when none or both are blocked |
| `EnemyRules.MoveInDirection` | Assets/Scripts/EnemyNPC.cs:354-361 | every move pins the height to -0.3 and moves speed·dt along the direction on the ground plane |
| `EnemyProofs.StepKeepsConsistent` | Assets/Scripts/EnemyNPC.cs:153-162 | every frame keeps the field invariant: never left in Attacking, gameIsOver iff GameOver, no pending confirmation while chasing, escape timer zero unless escaping, patrol index in range |
| `EnemyProofs.DetectKeepsConsistent` | Assets/Scripts/EnemyNPC.cs:164-191 | the detection phase keeps the field invariant |
| `EnemyProofs.BehaveKeepsConsistent` | Assets/Scripts/EnemyNPC.cs:193-225 | the state-behaviour phase keeps the field invariant, capture included |
| `EnemyProofs.TrackEscapeKeepsConsistent` | Assets/Scripts/EnemyNPC.cs:432-454 | the escape tracker keeps the field invariant |
| `EnemyProofs.FrozenOnceOver` | Assets/Scripts/EnemyNPC.cs:153-155 | once gameIsOver, or with no player, a frame changes nothing, asks for no movement and schedules nothing |
| `EnemyProofs.SignalIffRoundEnds` | Assets/Scripts/EnemyNPC.cs:252-257 | a frame schedules a session callback exactly when it sets gameIsOver, the latch never reopens, and the state is then GameOver |
| `EnemyProofs.SightingRule` | Assets/Scripts/EnemyNPC.cs:164-175 | on a due check the sighting flag holds iff in range, angle ≤ detectionAngle/2, clear line and not hidden; between checks it keeps its value |
| `EnemyProofs.FirstSightingOnlyArms` | Assets/Scripts/EnemyNPC.cs:227-237 | a first sighting while patrolling (for any detectionDelay) or searching (for detectionDelay > 0, since Searching confirms twice in one frame) keeps the state, arms the delay with detectionTimer = 0 and records the player's position |
| `EnemyProofs.ChaseNeedsConfirmation` | Assets/Scripts/EnemyNPC.cs:239-243 | from Patrolling for any detectionDelay, and from Searching when detectionDelay > 0, a chase starts only from a pending confirmation whose timer plus this frame's time has reached detectionDelay, and starting it clears the pending flag |
| `EnemyProofs.ConfirmedSightingStartsChase` | Assets/Scripts/EnemyNPC.cs:239-243 | conversely, a sighting on a due check while patrolling or searching, with a pending confirmation whose timer plus this frame's time has reached detectionDelay and the player out of reach, starts the chase and clears the pending flag |
| `EnemyProofs.DetectionTimerRunsOnlyWhilePending` | Assets/Scripts/EnemyNPC.cs:166 | while a confirmation stays pending the timer grows by exactly dt; otherwise it keeps its value or restarts at 0 |
| `EnemyProofs.DetectConfirmation` | Assets/Scripts/EnemyNPC.cs:164-191 | how the detection phase moves the confirmation clock, and that it enters Chasing only from a pending, expired confirmation |
| `EnemyProofs.BehaveConfirmation` | Assets/Scripts/EnemyNPC.cs:219-244 | how the state handlers move the confirmation clock, and that they enter Chasing only from Searching with an expired confirmation |
| `EnemyProofs.MissedSightingCancels` | Assets/Scripts/EnemyNPC.cs:185-189 | a due check that misses the player outside a chase cancels the pending delay and resets detectionTimer to exactly 0 |
| `EnemyProofs.SearchOnlyBeyondLoseRange` | Assets/Scripts/EnemyNPC.cs:181-183 | a chase becomes a search only when the player is unseen and strictly beyond loseTargetRange, and searchTimer restarts (0, or dt when the search handler runs in the same frame) |
| `EnemyProofs.UnseenBeyondLoseRangeStartsSearch` | Assets/Scripts/EnemyNPC.cs:212-215 | conversely, an unseen player beyond loseTargetRange and out of reach turns the chase into a search |
| `EnemyProofs.ChaseHoldsWithinLoseRange` | Assets/Scripts/EnemyNPC.cs:212-217 | within loseTargetRange and out of capture reach the chase continues toward the player at chaseSpeed |
| `EnemyProofs.SearchGivesUp` | Assets/Scripts/EnemyNPC.cs:219-225 | a search turns back to patrolling iff the player is unseen and searchTimer + dt ≥ 8 s |
| `EnemyProofs.CaptureEndsRound` | Assets/Scripts/EnemyNPC.cs:252-257 | within captureDistance during a chase, unless a due visibility check misses the player beyond loseTargetRange (which turns the chase into a search first), the frame ends in GameOver with gameIsOver set and schedules the game-over callback |
| `EnemyProofs.WaypointAdvance` | Assets/Scripts/EnemyNPC.cs:304-325 | the index stays in [0, n) and moves to (i+1) mod n exactly when, within 0.8 of the waypoint, the dwell plus dt reaches patrolWaitTime, which resets the dwell timer to 0; farther away the dwell is held and the adversary walks to the waypoint at patrolSpeed; within 0.8 and short of the wait the dwell grows by exactly dt and the adversary holds |
| `EnemyProofs.PatrolTimerHeldOutsidePatrol` | Assets/Scripts/EnemyNPC.cs:153-162 | a frame in which the patrol handler does not run (round over, no player, or chasing/searching after detection) leaves the dwell timer unchanged |
| `EnemyProofs.EscapeTimerAccumulates` | Assets/Scripts/EnemyNPC.cs:436-439 | at or beyond escapeDistance the escape is under way and its timer grows by dt, from 0 on a new escape |
| `EnemyProofs.EscapeTimerResets` | Assets/Scripts/EnemyNPC.cs:443-446 | back inside escapeDistance the escape is dropped, its timer is exactly 0 and nothing fires |
| `EnemyProofs.EscapeFiresWhen` | Assets/Scripts/EnemyNPC.cs:432-454 | escape fires iff the round is on, distance escape is enabled, the player is beyond escapeDistance and, when time gating is on, the timer has reached escapeTime |
| `EnemyProofs.Run` | Assets/Scripts/EnemyNPC.cs:153-162 | any sequence of frames keeps the field invariant |
| `EnemyProofs.RunFrozen` | Assets/Scripts/EnemyNPC.cs:153-155 | once the round is over, no sequence of frames changes anything or schedules anything |
| `EnemyProofs.AtMostOneSignal` | Assets/Scripts/EnemyNPC.cs:449-454 | over any sequence of frames exactly one callback is scheduled if the round ends and none otherwise, even when capture and escape coincide |
| `EnemyProofs.StepKeepsConfirmationBound` | Assets/Scripts/EnemyNPC.cs:227-244 | a frame keeps the confirmation timer within elapsed time and keeps "chasing ⇒ at least detectionDelay has elapsed" |
| `EnemyProofs.RunKeepsConfirmationBound` | Assets/Scripts/EnemyNPC.cs:227-244 | the same bound over any sequence of frames with non-negative frame times |
| `EnemyProofs.ChaseOnlyAfterDetectionDelay` | Assets/Scripts/EnemyNPC.cs:227-244 | from a state neither chasing nor pending, any run that ends in a chase covers at least detectionDelay seconds |
| `EnemyProofs.EscapeTimerIsTrailingStreak` | Assets/Scripts/EnemyNPC.cs:432-447 | the escape timer always equals the time of the latest uninterrupted stretch at or beyond escapeDistance, and an escape is under way iff the latest reading is beyond it |
| `Enemy.EnemyNpc.constructor` | Assets/Scripts/EnemyNPC.cs:146-151 | starts patrolling with every timer at zero and, when wandering without waypoints, a grounded first wander point; the invariant holds |
| `Enemy.EnemyNpc.ChangeState` | Assets/Scripts/EnemyNPC.cs:399 | the state becomes the requested one and nothing else changes |
| `Enemy.EnemyNpc.GenerateRandomPatrolTarget` | Assets/Scripts/EnemyNPC.cs:347-352 | the wander target becomes the drawn point pinned to height -0.3 |
| `Enemy.EnemyNpc.Update` | Assets/Scripts/EnemyNPC.cs:153-162 | the fields, motion and signal are those of one frame step, and the invariant is kept |
| `Enemy.EnemyNpc.UpdateDetection` | Assets/Scripts/EnemyNPC.cs:164-191 | the fields become those of the detection phase |
| `Enemy.EnemyNpc.UpdateStateBehavior` | Assets/Scripts/EnemyNPC.cs:193-202 | dispatches on the state; fields, motion and signal are those of the behaviour phase |
| `Enemy.EnemyNpc.HandlePatrolling` | Assets/Scripts/EnemyNPC.cs:204-210 | waypoint patrol when waypoints exist and wandering is off, wandering otherwise |
| `Enemy.EnemyNpc.HandleChasing` | Assets/Scripts/EnemyNPC.cs:212-217 | capture within captureDistance, else lose the target when unseen beyond loseTargetRange, else chase |
| `Enemy.EnemyNpc.HandleSearching` | Assets/Scripts/EnemyNPC.cs:219-225 | adds dt to the search clock, then re-confirms on a sighting, gives up at 8 s, or heads to the last-seen spot |
| `Enemy.EnemyNpc.OnPlayerDetected` | Assets/Scripts/EnemyNPC.cs:227-244 | records the position; arms the delay if none is pending, else starts the chase once the timer has reached detectionDelay |
| `Enemy.EnemyNpc.OnPlayerLost` | Assets/Scripts/EnemyNPC.cs:246-250 | switches to Searching with searchTimer = 0 |
| `Enemy.EnemyNpc.CapturePlayer` | Assets/Scripts/EnemyNPC.cs:252-257 | a no-op once gameIsOver; otherwise ends in GameOver with gameIsOver set and the game-over callback scheduled |
| `Enemy.EnemyNpc.GameOverSequence` | Assets/Scripts/EnemyNPC.cs:466-474 | before its wait: sets gameIsOver and the GameOver state |
| `Enemy.EnemyNpc.ChasePlayer` | Assets/Scripts/EnemyNPC.cs:284-290 | moves toward the player at chaseSpeed and records the player's position |
| `Enemy.EnemyNpc.SearchLastPosition` | Assets/Scripts/EnemyNPC.cs:292-302 | beyond 0.8 of the last-seen spot moves toward it at patrolSpeed, otherwise turns in place at 60°/s; changes no field |
| `Enemy.EnemyNpc.PatrolBetweenPoints` | Assets/Scripts/EnemyNPC.cs:304-325 | the fields and motion of one waypoint-patrol step |
| `Enemy.EnemyNpc.RandomPatrol` | Assets/Scripts/EnemyNPC.cs:327-345 | the fields and motion of one wander step, drawing a new target after the dwell |
| `EnemyProofs.WanderAdvance` | Assets/Scripts/EnemyNPC.cs:327-345 | while wandering: within 0.8 of the target, once the dwell plus dt reaches patrolWaitTime, the target becomes the drawn point at height -0.3 and the dwell resets to 0; farther away dwell and target are held and the adversary walks to the target at patrolSpeed; within 0.8 and short of the wait the dwell grows by exactly dt, the target is kept and the adversary holds |
| `Enemy.EnemyNpc.CheckEscapeConditions` | Assets/Scripts/EnemyNPC.cs:432-447 | the fields and signal of one escape-tracker step |
| `Enemy.EnemyNpc.PlayerEscaped` | Assets/Scripts/EnemyNPC.cs:449-454 | a no-op once gameIsOver; otherwise sets the latch, GameOver, and schedules the victory callback |
| `Enemy.EnemyNpc.VictorySequence` | Assets/Scripts/EnemyNPC.cs:476-482 | before its wait: the state becomes GameOver |
| `Enemy.EnemyNpc.GetCurrentState` | Assets/Scripts/EnemyNPC.cs:486 | the reported state is never Attacking |
| `Zone.InsideMatchesDistance` | Assets/Scripts/SafeZone.cs:100-105 | the sqrt-free test holds iff the horizontal distance is ≤ radius + 0.05 |
| `Zone.InsideMatchesHeight` | Assets/Scripts/SafeZone.cs:100-103 | moving the player to the zone's height does not change the test |
| `Zone.Clamp01` | Assets/Scripts/SafeZone.cs:134 | the result lies in [0, 1] and equals its input when that already does |
| `Zone.ProgressDivisor` | Assets/Scripts/SafeZone.cs:134 | the divisor is max(0.01, timeToWin), hence positive for any timeToWin |
| `Zone.WinProgress` | Assets/Scripts/SafeZone.cs:134 | progress lies in [0, 1], is 0 iff no time has been spent inside, and is 1 iff timeInZone ≥ max(0.01, timeToWin), in particular iff timeInZone ≥ timeToWin when timeToWin ≥ 0.01 |
| `Zone.WinProgressMonotone` | Assets/Scripts/SafeZone.cs:134 | a longer stay never shows less progress |
| `Zone.Sample` | Assets/Scripts/SafeZone.cs:96-108 | with a player, the inside flag is the inside test, inside adds dt to timeInZone and outside resets it to 0; without one, nothing changes |
| `Zone.TimeInZoneIsCurrentStay` | Assets/Scripts/SafeZone.cs:106-107 | from zero, timeInZone always equals the time of the current uninterrupted stay, so no partial credit survives an exit |
| `Zone.ProgressGrowsWhileInside` | Assets/Scripts/SafeZone.cs:106 | while the player stays inside and dt ≥ 0, progress never drops |
| `Zone.ExitForfeitsProgress` | Assets/Scripts/SafeZone.cs:107 | a frame outside the zone brings progress to exactly 0 |
| `Zone.SafeZone.constructor` | Assets/Scripts/SafeZone.cs:7-19 | starts outside with no time counted |
| `Zone.SafeZone.Update` | Assets/Scripts/SafeZone.cs:96-108 | no player: nothing changes; inside: playerInside and timeInZone grows by dt; outside: not inside and timeInZone = 0 |
| `Zone.SafeZone.IsPlayerInZone` | Assets/Scripts/SafeZone.cs:133 | when it answers false, no time is counted |
| `Zone.SafeZone.GetWinProgress` | Assets/Scripts/SafeZone.cs:134 | in [0, 1], and 1 iff timeInZone ≥ max(0.01, timeToWin) |
| `Zone.SafeZone.GetTimeInZone` | Assets/Scripts/SafeZone.cs:135 | zero whenever the player is not inside |
| `Session.Trunc` | Assets/Scripts/GameManager.cs:273 | truncation toward zero: within one below a non-negative input, within one above a negative one |
| `Session.FMod` | Assets/Scripts/GameManager.cs:273 | the C# float remainder: in [0, b) for a ≥ 0, in (-b, 0] for a < 0, and a minus it is the truncated multiple of b |
| `Session.ClockDigits` | Assets/Scripts/GameManager.cs:272-273 | for t ≥ 0, minutes ≥ 0, seconds in [0, 59] and 60·m + s ≤ t < 60·m + s + 1; for t < 0 both are non-positive |
| `Session.LatchGameOver` | Assets/Scripts/GameManager.cs:345-351 | gameOver is set and nothing else changes, whether or not it was already set |
| `Session.LatchVictory` | Assets/Scripts/GameManager.cs:353-359 | victoryAchieved is set and nothing else changes, whether or not it was already set |
| `Session.Begin` | Assets/Scripts/GameManager.cs:224-227 | the round is open (started, neither latch set) and startTime is now |
| `Session.Tick` | Assets/Scripts/GameManager.cs:229-236 | nothing changes unless the round is open; latches only rise; gameOver rises iff open and the adversary reports Attacking; victory rises iff open, the progress text is shown and the player is in the zone with progress ≥ 1; the clock is now − startTime |
| `Session.LatchesHold` | Assets/Scripts/GameManager.cs:229-236 | over any frames latches stay set, and once either is set nothing changes at all |
| `Session.EndsOnce` | Assets/Scripts/GameManager.cs:229-236 | from an open round, either it stays open or there is one frame in which it ends, after which nothing changes |
| `Session.PlaySplit` | Assets/Scripts/GameManager.cs:229-236 | playing frames is playing a prefix and then the rest |
| `Session.AttackCheckNeverFires` | Assets/Scripts/GameManager.cs:337-342 | with any state the adversary can be in between frames, the Attacking check leaves gameOver unchanged |
| `Session.GameManager.constructor` | Assets/Scripts/GameManager.cs:50-65 | the round is open, the clock starts at now and gameTime is 0 |
| `Session.GameManager.StartGame` | Assets/Scripts/GameManager.cs:224-227 | sets gameStarted, clears both latches and restarts the clock |
| `Session.GameManager.Update` | Assets/Scripts/GameManager.cs:229-236 | the new fields are one frame step; a closed round is left untouched |
| `Session.GameManager.UpdateEscapeProgress` | Assets/Scripts/GameManager.cs:297-310 | triggers victory iff the text exists and is shown, the player is in the zone, progress ≥ 1 and victory is not yet achieved |
| `Session.GameManager.CheckGameConditions` | Assets/Scripts/GameManager.cs:337-342 | triggers game over iff an adversary exists, reports Attacking and gameOver is clear |
| `Session.GameManager.TriggerGameOver` | Assets/Scripts/GameManager.cs:345-351 | latches gameOver; its effects fire iff it was clear; victoryAchieved is neither read nor written |
| `Session.GameManager.TriggerVictory` | Assets/Scripts/GameManager.cs:353-359 | latches victoryAchieved; its effects fire iff it was clear; gameOver is neither read nor written |
| `Session.GameManager.IsGameOver` | Assets/Scripts/GameManager.cs:396 | reports the gameOver latch; when it is set the round is closed and no frame runs |
| `Session.GameManager.IsVictoryAchieved` | Assets/Scripts/GameManager.cs:397 | reports the victoryAchieved latch; when it is set the round is closed and no frame runs |
| `Session.GameManager.TimerDigits` | Assets/Scripts/GameManager.cs:272-273 | for a non-negative game time the seconds shown lie in [0, 59] |

## Left out

- **Engine queries are parameters, not models.** Physics ray casts,
  `Vector3.Distance`, `Vector3.Angle`, normalisation and the Slerp rotation
  are not modelled. Their results (distances, the angle and probe outcomes)
  are parameters, and the motion is an intent the host resolves.
- **Scene discovery is left out.** Lookup by tag, name or type scan is not
  modelled. A missing player, adversary or zone is `playerPresent = false` or
  `None`.
- **Concealment is an input.** `PlayerController` does not define the
  concealment query the adversary calls (`IsHiddenForNPC`), so concealment is
  the `Frame.hidden` input. `PlayerController.cs`, `CameraFollow.cs`,
  `MainMenuUI.cs` and `SafeZoneCreator.cs` are not part of this model: they
  hold input handling, physics, camera smoothing, menu UI and random
  placement.
- **Randomness is an input.** `GenerateRandomPatrolTarget` takes its drawn
  point as input (`Frame.nextWanderTarget`), and the draw itself is not
  modelled.
- **Coroutine waits are left out.** Only the synchronous part before the
  first `yield` is modelled, and the delayed callback is the `Signal` result.
  The scene reload used when no GameManager exists, `Time.timeScale` and the
  panels are not modelled.
- **Presentation is left out.** Audio, materials, the detection effect,
  visual feedback and the zone's disc and ring are not modelled. So are the UI
  construction, the status text, the texts written by `UpdateEscapeProgress`
  and `UpdateMainTimer`, scene loading, `RestartGame` and `GoToMainMenu`.
- **The activation countdown and detection countdown are left out.**
  `UpdateMainTimer` calls `IsNPCActive`, `GetActivationCountdown`,
  `IsInDetectionDelay` and `GetDetectionSecondsLeft`, but the adversary script
  defines none of them, so there is no activation delay to model. Its "safe"
  countdown hard-codes 5 s rather than `timeToWin`, and it is display only.
  Only the clock split is modelled.
- **Numbers are exact.** Floats are exact reals, so rounding is not modelled.
  `Mathf.FloorToInt` is an unbounded floor, so its 32-bit range is not
  modelled.
- EnemyRules.ToLower: folds only A–Z, whereas the source's `String.ToLower`
  is culture-aware and also folds non-ASCII letters.
- EnemyRules.MoveInDirection: the direction it is given is the one the
  host picked after avoidance. Normalising that direction is not modelled.
- Session.Tick: assumes the frame runs to completion. `UpdateMainTimer`
  writes `timerText` with no null check (Assets/Scripts/GameManager.cs:250-276),
  so in a scene whose `mainUI` is assigned but whose `timerText` is not, a
  frame that reaches one of those writes throws before `UpdateEscapeProgress`
  and `CheckGameConditions`, and neither latch can rise in it. The model does
  not capture that abort: it takes the timer text to exist, as `CreateUI`
  guarantees.
- Session.GameManager.Update: computes `Tick`, so it carries the same
  assumption that `timerText` exists and the frame is not aborted before its
  victory and game-over checks.
- Enemy.EnemyNpc.GameOverSequence: before its wait it also disables the
  player's controller (`playerController.enabled = false`). The player
  controller is not part of this model, so that step is not captured.
- Enemy.EnemyNpc.SearchLastPosition: the turn in place is reported as
  60·dt degrees. The rotation itself is not applied.
