/**
 * The session manager (GameManager): the game clock and the two outcome
 * latches, game over and victory, that end a round. Other components are read
 * through what they report in a frame: the adversary's state and the safe
 * zone's occupancy, each missing when the scene has no such object.
 */
module Session {
  import opened Scene
  import opened EnemyRules

  // ---------------------------------------------------------------------------
  // Clock arithmetic

  /** Conversion of a real to an integer by truncation toward zero, as a C# cast does. */
  function Trunc(x: real): (r: int)
    ensures x >= 0.0 ==> r as real <= x < r as real + 1.0
    ensures x < 0.0 ==> r as real - 1.0 < x <= r as real
  {
    if x >= 0.0 then x.Floor else -((-x).Floor)
  }

  /**
   * The remainder of the C# operator % on floats: a minus the multiple of b
   * truncated toward zero, so it takes the sign of a.
   */
  function FMod(a: real, b: real): (r: real)
    requires b > 0.0
    ensures a >= 0.0 ==> 0.0 <= r < b
    ensures a < 0.0 ==> -b < r <= 0.0
    ensures (a - r) / b == Trunc(a / b) as real
  {
    RemainderBounds(a, b);
    a - b * Trunc(a / b) as real
  }

  lemma RemainderBounds(a: real, b: real)
    requires b > 0.0
    ensures var r := a - b * Trunc(a / b) as real;
      (a >= 0.0 ==> 0.0 <= r < b) && (a < 0.0 ==> -b < r <= 0.0)
  {
    var q := a / b;
    var k := Trunc(q) as real;
    assert b * q == a;
    QuotientSign(a, b);
    if a >= 0.0 {
      RemainderAbove(a, b, q, k);
    } else {
      RemainderBelow(a, b, q, k);
    }
  }

  /** a - b * k lies in [0, b) when a = b * q and k <= q < k + 1. */
  lemma RemainderAbove(a: real, b: real, q: real, k: real)
    requires b > 0.0 && b * q == a && k <= q < k + 1.0
    ensures 0.0 <= a - b * k < b
  {
    var d := q - k;
    ScaleLe(0.0, d, b);
    ScaleLt(d, 1.0, b);
    assert b * d == a - b * k;
    assert 0.0 <= b * d < b;
  }

  /** a - b * k lies in (-b, 0] when a = b * q and k - 1 < q <= k. */
  lemma RemainderBelow(a: real, b: real, q: real, k: real)
    requires b > 0.0 && b * q == a && k - 1.0 < q <= k
    ensures -b < a - b * k <= 0.0
  {
    var d := k - q;
    ScaleLe(0.0, d, b);
    ScaleLt(d, 1.0, b);
    assert b * d == b * k - a;
    assert 0.0 <= b * d < b;
  }

  lemma QuotientSign(a: real, b: real)
    requires b > 0.0
    ensures a >= 0.0 <==> a / b >= 0.0
  {
    assert b * (a / b) == a;
    if a / b >= 0.0 {
      ScaleLe(0.0, a / b, b);
    } else {
      ScaleLt(a / b, 0.0, b);
    }
  }

  lemma ScaleLe(x: real, y: real, b: real)
    requires b > 0.0 && x <= y
    ensures b * x <= b * y
  {
    assert b * y - b * x == b * (y - x);
  }

  lemma ScaleLt(x: real, y: real, b: real)
    requires b > 0.0 && x < y
    ensures b * x < b * y
  {
    assert b * y - b * x == b * (y - x);
    assert b * (y - x) > 0.0;
  }

  /** What the timer shows: whole minutes and whole seconds. */
  datatype Clock = Clock(minutes: int, seconds: int)

  /**
   * The split of UpdateMainTimer: minutes are the floor of t / 60 and seconds
   * the floor of t % 60. For a non-negative time the seconds lie in [0, 59] and
   * the clock reads t to the second.
   */
  function ClockDigits(t: real): (c: Clock)
    ensures t >= 0.0 ==> c.minutes >= 0 && 0 <= c.seconds <= 59
    ensures t >= 0.0 ==>
      (60 * c.minutes + c.seconds) as real <= t < (60 * c.minutes + c.seconds) as real + 1.0
    ensures t < 0.0 ==> c.minutes < 0 && -60 <= c.seconds <= 0
  {
    var minutes := (t / 60.0).Floor;
    var rest := FMod(t, 60.0);
    assert t >= 0.0 ==> rest == t - 60.0 * minutes as real;
    Clock(minutes, rest.Floor)
  }

  // ---------------------------------------------------------------------------
  // The latches as a value

  /** The fields GameManager updates. */
  datatype Status = Status(gameStarted: bool, gameOver: bool, victoryAchieved: bool, startTime: real, gameTime: real)

  /** What the safe zone reports when asked: whether the player is inside, and the win progress. */
  datatype ZoneReport = ZoneReport(inZone: bool, progress: real)

  /** The HUD settings that gate the victory check: showEscapeProgress and whether the progress text exists. */
  datatype Hud = Hud(showEscapeProgress: bool, hasEscapeProgressText: bool)

  /** A frame runs only in a started round that has not ended. */
  predicate Open(st: Status) {
    st.gameStarted && !st.gameOver && !st.victoryAchieved
  }

  /** What UpdateEscapeProgress needs to call TriggerVictory. */
  predicate VictoryDue(hud: Hud, st: Status, zone: Option<ZoneReport>) {
    && hud.hasEscapeProgressText && hud.showEscapeProgress
    && zone.Some? && zone.value.inZone
    && zone.value.progress >= 1.0 && !st.victoryAchieved
  }

  /** What CheckGameConditions needs to call TriggerGameOver. */
  predicate GameOverDue(st: Status, enemy: Option<EnemyState>) {
    enemy == Some(Attacking) && !st.gameOver
  }

  /** TriggerGameOver: sets gameOver when it is clear; otherwise nothing happens. */
  function LatchGameOver(st: Status): (r: Status)
    ensures r.gameOver
    ensures r == st.(gameOver := true)
  {
    if st.gameOver then st else st.(gameOver := true)
  }

  /** TriggerVictory: sets victoryAchieved when it is clear; otherwise nothing happens. */
  function LatchVictory(st: Status): (r: Status)
    ensures r.victoryAchieved
    ensures r == st.(victoryAchieved := true)
  {
    if st.victoryAchieved then st else st.(victoryAchieved := true)
  }

  /** StartGame. */
  function Begin(st: Status, now: real): (r: Status)
    ensures Open(r) && r.startTime == now && r.gameTime == st.gameTime
  {
    st.(gameStarted := true, gameOver := false, victoryAchieved := false, startTime := now)
  }

  /**
   * One frame of Update: nothing unless the round is open; otherwise the
   * clock, the victory check of UpdateEscapeProgress, then CheckGameConditions.
   */
  function Tick(hud: Hud, st: Status, now: real, enemy: Option<EnemyState>, zone: Option<ZoneReport>): (r: Status)
    ensures !Open(st) ==> r == st
    ensures r.gameStarted == st.gameStarted && r.startTime == st.startTime
    ensures st.gameOver ==> r.gameOver
    ensures st.victoryAchieved ==> r.victoryAchieved
    ensures r.gameOver != st.gameOver <==> Open(st) && enemy == Some(Attacking)
    ensures r.victoryAchieved != st.victoryAchieved <==> Open(st) && VictoryDue(hud, st, zone)
    ensures Open(st) ==> r.gameTime == now - st.startTime
  {
    if !Open(st) then st
    else
      var timed := st.(gameTime := now - st.startTime);
      var checked := if VictoryDue(hud, timed, zone) then LatchVictory(timed) else timed;
      if GameOverDue(checked, enemy) then LatchGameOver(checked) else checked
  }

  /** What the session reads in a frame. */
  datatype SessionFrame = SessionFrame(now: real, enemy: Option<EnemyState>, zone: Option<ZoneReport>)

  /** The status after a sequence of frames, oldest first. */
  function Play(hud: Hud, st: Status, rs: seq<SessionFrame>): Status
    decreases |rs|
  {
    if rs == [] then st
    else
      var before := Play(hud, st, rs[..|rs| - 1]);
      var last := rs[|rs| - 1];
      Tick(hud, before, last.now, last.enemy, last.zone)
  }

  /**
   * Latches are never cleared by frames, and once either is set no later frame
   * changes anything: the clock stops at the value it had when the round ended.
   */
  lemma {:induction false} LatchesHold(hud: Hud, st: Status, rs: seq<SessionFrame>)
    ensures st.gameOver ==> Play(hud, st, rs).gameOver
    ensures st.victoryAchieved ==> Play(hud, st, rs).victoryAchieved
    ensures !Open(st) ==> Play(hud, st, rs) == st
    decreases |rs|
  {
    if rs != [] {
      LatchesHold(hud, st, rs[..|rs| - 1]);
    }
  }

  /**
   * Over any sequence of frames from an open round, the round ends in the frame
   * where the first outcome arrives and at most one frame sets a latch. A frame
   * that sets the victory latch may set the game-over latch as well, because
   * CheckGameConditions runs after UpdateEscapeProgress in the same frame.
   */
  lemma {:induction false} EndsOnce(hud: Hud, st: Status, rs: seq<SessionFrame>)
    requires Open(st)
    ensures Open(Play(hud, st, rs)) || exists k :: EndsAt(hud, st, rs, k)
    decreases |rs|
  {
    if rs != [] {
      var init := rs[..|rs| - 1];
      EndsOnce(hud, st, init);
      var before := Play(hud, st, init);
      if Open(before) {
        if !Open(Play(hud, st, rs)) {
          assert rs[..|rs| - 1 + 1] == rs;
          assert EndsAt(hud, st, rs, |rs| - 1);
        }
      } else {
        var k :| EndsAt(hud, st, init, k);
        LatchesHold(hud, Play(hud, st, init[..k + 1]), rs[k + 1..]);
        PlaySplit(hud, st, rs, k + 1);
        assert init[..k + 1] == rs[..k + 1];
        assert init[..k] == rs[..k];
        assert EndsAt(hud, st, rs, k);
      }
    }
  }

  /** The round is open before frame k, ends in it, and stays as frame k left it. */
  ghost predicate EndsAt(hud: Hud, st: Status, rs: seq<SessionFrame>, k: int) {
    && 0 <= k < |rs|
    && Open(Play(hud, st, rs[..k]))
    && !Open(Play(hud, st, rs[..k + 1]))
    && Play(hud, st, rs) == Play(hud, st, rs[..k + 1])
  }

  /** Playing a sequence is playing its first n frames, then the rest. */
  lemma {:induction false} PlaySplit(hud: Hud, st: Status, rs: seq<SessionFrame>, n: nat)
    requires n <= |rs|
    ensures Play(hud, st, rs) == Play(hud, Play(hud, st, rs[..n]), rs[n..])
    decreases |rs| - n
  {
    if n < |rs| {
      PlaySplit(hud, st, rs[..|rs| - 1], n);
      assert rs[..|rs| - 1][..n] == rs[..n];
      assert rs[n..][..|rs[n..]| - 1] == rs[..|rs| - 1][n..];
    } else {
      assert rs[..n] == rs;
    }
  }

  /**
   * The adversary never reports Attacking between frames (capture moves it on
   * to GameOver within the same call), so the game-over check of
   * CheckGameConditions does not fire on a state the adversary can be in; the
   * round ends in defeat through the adversary's delayed TriggerGameOver instead.
   */
  lemma AttackCheckNeverFires(c: Config, s: Npc, hud: Hud, st: Status, now: real, zone: Option<ZoneReport>)
    requires Consistent(c, s)
    ensures Tick(hud, st, now, Some(s.currentState), zone).gameOver == st.gameOver
  {
  }

  // ---------------------------------------------------------------------------
  // The component

  class GameManager {
    const hud: Hud

    var gameStarted: bool
    var gameOver: bool
    var victoryAchieved: bool
    var startTime: real
    var gameTime: real

    function Snapshot(): Status
      reads this
    {
      Status(gameStarted, gameOver, victoryAchieved, startTime, gameTime)
    }

    /** InitializeGame and StartGame, with the clock read as now. */
    constructor (hud: Hud, now: real)
      ensures this.hud == hud
      ensures Open(Snapshot()) && startTime == now && gameTime == 0.0
    {
      this.hud := hud;
      gameStarted := false;
      gameOver := false;
      victoryAchieved := false;
      gameTime := 0.0;
      startTime := now;
      new;
      StartGame(now);
    }

    method StartGame(now: real)
      modifies this
      ensures Snapshot() == Begin(old(Snapshot()), now)
      ensures gameStarted && !gameOver && !victoryAchieved && startTime == now
      ensures gameTime == old(gameTime)
    {
      gameStarted, gameOver, victoryAchieved, startTime := true, false, false, now;
    }

    /**
     * One frame. now is Time.time; enemy is the adversary's current state and
     * zone the safe zone's report, each None when the object is missing.
     */
    method Update(now: real, enemy: Option<EnemyState>, zone: Option<ZoneReport>)
      modifies this
      ensures Snapshot() == Tick(hud, old(Snapshot()), now, enemy, zone)
      ensures !old(Open(Snapshot())) ==> Snapshot() == old(Snapshot())
    {
      if !gameStarted || gameOver || victoryAchieved {
        return;
      }
      gameTime := now - startTime;
      UpdateEscapeProgress(zone);
      CheckGameConditions(enemy);
    }

    /** The victory trigger of UpdateEscapeProgress; the texts it writes are not modelled. */
    method UpdateEscapeProgress(zone: Option<ZoneReport>)
      modifies this
      ensures Snapshot() == if VictoryDue(hud, old(Snapshot()), zone) then LatchVictory(old(Snapshot())) else old(Snapshot())
    {
      if !hud.hasEscapeProgressText || !hud.showEscapeProgress {
        return;
      }
      if zone.Some? && zone.value.inZone {
        var p := zone.value.progress;
        if p >= 1.0 && !victoryAchieved {
          var _ := TriggerVictory();
        }
      }
    }

    method CheckGameConditions(enemy: Option<EnemyState>)
      modifies this
      ensures Snapshot() == if GameOverDue(old(Snapshot()), enemy) then LatchGameOver(old(Snapshot())) else old(Snapshot())
    {
      if enemy == None {
        return;
      }
      if enemy.value == Attacking && !gameOver {
        var _ := TriggerGameOver();
      }
    }

    /**
     * Sets gameOver; fired says whether this call set it, i.e. whether the sound
     * and the delayed game-over panel start. Only gameOver is read and written.
     */
    method TriggerGameOver() returns (fired: bool)
      modifies this`gameOver
      ensures gameOver
      ensures fired <==> !old(gameOver)
      ensures Snapshot() == LatchGameOver(old(Snapshot()))
    {
      if gameOver {
        return false;
      }
      gameOver := true;
      return true;
    }

    /**
     * Sets victoryAchieved; fired says whether this call set it, i.e. whether the
     * sound and the delayed victory panel start. Only victoryAchieved is read and written.
     */
    method TriggerVictory() returns (fired: bool)
      modifies this`victoryAchieved
      ensures victoryAchieved
      ensures fired <==> !old(victoryAchieved)
      ensures Snapshot() == LatchVictory(old(Snapshot()))
    {
      if victoryAchieved {
        return false;
      }
      victoryAchieved := true;
      return true;
    }

    /** Whether the round was lost; once it was, no frame runs. */
    function IsGameOver(): (r: bool)
      reads this
      ensures r <==> Snapshot().gameOver
      ensures r ==> !Open(Snapshot())
    {
      gameOver
    }

    /** Whether the round was won; once it was, no frame runs. */
    function IsVictoryAchieved(): (r: bool)
      reads this
      ensures r <==> Snapshot().victoryAchieved
      ensures r ==> !Open(Snapshot())
    {
      victoryAchieved
    }

    /** The timer text's minutes and seconds for the current game time. */
    function TimerDigits(): (c: Clock)
      reads this
      ensures gameTime >= 0.0 ==> 0 <= c.seconds <= 59
    {
      ClockDigits(gameTime)
    }
  }
}
