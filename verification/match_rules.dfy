/**
 * One frame of the match (Game.update in game/game.py) stated on values:
 * a `World` holds what the frame reads and writes, and `Frame` is the
 * frame itself, in the source's order: the clock, the border blink, the
 * auto-test timer and its two exits, the fighters (two AI players in
 * auto-test, the held keys and the simple AI otherwise), the projectile
 * flight, the collisions, and the knock-out check. reset_players is
 * `ResetMatch`.
 */
module MatchRules {
  import opened Numeric
  import opened Constants
  import opened Wrappers
  import opened Projectiles
  import opened ArenaModel
  import opened PlayerRules
  import opened CollisionRules
  import opened AiRules

  /** The screens of the game (GameState), named as in the source. */
  datatype GameState =
    | TITLE | CHARACTER_SELECT | GAME | TRAINING | AUTO_TEST | PAUSE
    | OPTIONS | KEY_CONFIG | CONTROLS | GAME_OVER | RESULT

  /** test_duration: a number of frames, or float('inf') for "until somebody is down". */
  datatype Duration = Frames(n: int) | UntilKnockout

  /** The winner (1 or 2) and result_timer, both set when a match is decided. */
  datatype MatchResult = MatchResult(winner: int, timer: int)

  /** ai_move_interval: the auto-test AI resamples its walk once a second. */
  const AI_MOVE_INTERVAL: int := 60

  /** The game's fields a frame reads or writes, the players as values and the border blink as (alpha, direction). */
  datatype World = World(
    state: GameState, previousState: Option<GameState>, currentTime: int, result: Option<MatchResult>,
    testTimer: int, testDuration: Duration, ai1: AiMemory, ai2: AiMemory,
    projectiles: seq<ProjectileState>, p1: PlayerState, p2: PlayerState, pulse: (int, int))

  function Pos(s: PlayerState): Point {
    Point(s.body.x, s.body.y)
  }

  /** The screens in which update runs the fight. */
  predicate InPlay(s: GameState) {
    s == GAME || s == TRAINING || s == AUTO_TEST
  }

  predicate KnockedOut(w: World) {
    w.p1.vitals.health <= 0.0 || w.p2.vitals.health <= 0.0
  }

  /** The end of a match: the result screen, with player 2 the winner exactly when player 1 is down. */
  function Decide(w: World): World {
    w.(state := RESULT, result := Some(MatchResult(if w.p1.vitals.health <= 0.0 then 2 else 1, 0)))
  }

  // ---------------------------------------------------------------- the steps of a frame

  /** Player 1's update against player 2's position; its shots join the list. */
  function MovePlayer1(m: Math, arena: Arena, w: World, keys: Intent): World
    requires Lawful(m)
  {
    var f := Tick(m, arena, w.p1, Pos(w.p2), keys);
    w.(p1 := f.state, projectiles := w.projectiles + f.shots)
  }

  /** Player 2's update against player 1's position; its shots join the list. */
  function MovePlayer2(m: Math, arena: Arena, w: World, keys: Intent): World
    requires Lawful(m)
  {
    var f := Tick(m, arena, w.p2, Pos(w.p1), keys);
    w.(p2 := f.state, projectiles := w.projectiles + f.shots)
  }

  /**
   * The auto-test fighters: both AI timers advance, both players' keys are
   * chosen from the frame's starting positions, then player 1 moves against
   * player 2 and player 2 against the moved player 1; their shots join the
   * list in firing order.
   */
  function AutoTestFighters(m: Math, arena: Arena, w: World, r1: AiDraws, r2: AiDraws): World
    requires Lawful(m)
  {
    var c := AutoTestMinds(m, w, r1, r2);
    MovePlayer2(m, arena, MovePlayer1(m, arena, c.0, c.1), c.2)
  }

  /** The two AI players' choices: both timers advance, then each chooses its keys; the world with the new memories, and the two players' keys. */
  function AutoTestMinds(m: Math, w: World, r1: AiDraws, r2: AiDraws): (World, Intent, Intent) {
    var c1 := AutoTestControl(m, w.p1, Pos(w.p2), w.projectiles, w.ai1.(timer := w.ai1.timer + 1), AI_MOVE_INTERVAL, r1);
    var c2 := AutoTestControl(m, w.p2, Pos(w.p1), w.projectiles, w.ai2.(timer := w.ai2.timer + 1), AI_MOVE_INTERVAL, r2);
    (w.(ai1 := c1.1, ai2 := c2.1), c1.0, c2.0)
  }

  /**
   * The versus and training fighters: player 1 moves on the held keys; in
   * versus mode player 2 then moves on the simple AI's keys, chosen from the
   * moved player 1 and the frame counter. In training player 2 stands still.
   */
  function VersusFighters(m: Math, arena: Arena, w: World, held: Intent): World
    requires Lawful(m)
  {
    var w1 := MovePlayer1(m, arena, w, held);
    if w.state == GAME then MovePlayer2(m, arena, w1, SimpleAiControl(m, w1.p1, w1.p2, w1.currentTime)) else w1
  }

  /** The projectile loop: each projectile flies one frame towards the players' positions; the dead ones are dropped. */
  function Survivors(m: Math, ps: seq<ProjectileState>, a: Point, b: Point): seq<ProjectileState> {
    if |ps| == 0 then []
    else
      var q := UpdateRule(m, ps[|ps| - 1], a, b);
      Survivors(m, ps[..|ps| - 1], a, b) + (if q.isDead then [] else [q])
  }

  /** The projectile loop on the world, towards the players' current positions. */
  function Flown(m: Math, w: World): World {
    w.(projectiles := Survivors(m, w.projectiles, Pos(w.p1), Pos(w.p2)))
  }

  /** handle_collisions on the world. */
  function Collide(m: Math, w: World): World {
    var f := ResolveAll(m, w.p1, w.p2, w.projectiles);
    w.(p1 := f.p1, p2 := f.p2, projectiles := f.projectiles)
  }

  /**
   * After the fighters: the projectiles fly, the collisions are resolved,
   * and a knock-out ends the match unless the auto-test runs until
   * knock-out (that one is decided at the start of the next frame).
   */
  function Settle(m: Math, w: World): World {
    var c := Collide(m, Flown(m, w));
    if (c.state != AUTO_TEST || c.testDuration != UntilKnockout) && KnockedOut(c) then Decide(c) else c
  }

  /**
   * An auto-test frame once its timer has advanced: back to the title when a
   * timed test has run its course, to the result screen when a test until
   * knock-out finds a player down, and otherwise a fight frame.
   */
  function AutoTestFrame(m: Math, arena: Arena, w: World, r1: AiDraws, r2: AiDraws): World
    requires Lawful(m)
  {
    if w.testDuration.Frames? && w.testTimer >= w.testDuration.n then w.(state := TITLE)
    else if w.testDuration.UntilKnockout? && KnockedOut(w) then Decide(w)
    else Settle(m, AutoTestFighters(m, arena, w, r1, r2))
  }

  /** The start of every frame: current_time counts it. */
  function Tock(w: World): World {
    w.(currentTime := w.currentTime + 1)
  }

  /** The start of a fight frame after the clock: the screen is remembered and the border blinks. */
  function Begin(arena: Arena, w: World): World {
    var t := Tock(w);
    t.(previousState := Some(t.state), pulse := PulseStep(t.pulse.0, t.pulse.1, arena.borderAlphaSpeed))
  }

  /** The start of an auto-test frame: a fight frame's start, and the test timer counts it. */
  function AutoTestBegin(arena: Arena, w: World): World {
    CountTestFrame(Begin(arena, w))
  }

  /** test_timer counts one more frame of the automatic test. */
  function CountTestFrame(w: World): World {
    w.(testTimer := w.testTimer + 1)
  }

  /** Game.update: one frame, the keys held by the human player and the two AI players' draws given. */
  function Frame(m: Math, arena: Arena, w: World, held: Intent, r1: AiDraws, r2: AiDraws): World
    requires Lawful(m)
  {
    if !InPlay(w.state) then Tock(w)
    else if w.state == AUTO_TEST then AutoTestFrame(m, arena, AutoTestBegin(arena, w), r1, r2)
    else Settle(m, VersusFighters(m, arena, Begin(arena, w), held))
  }

  /** test_duration at start-up: ten seconds of frames. */
  const INITIAL_TEST_DURATION: int := 60 * 10

  /** The world at start-up: the title screen, both players fresh at their start positions, no projectiles, a timed test of ten seconds. */
  function Opening(): World {
    World(TITLE, None, 0, None, 0, Frames(INITIAL_TEST_DURATION), AiMemory(0, STILL), AiMemory(0, STILL), [],
          Initial(ARENA_CENTER_X - 100.0, ARENA_CENTER_Y, true), Initial(ARENA_CENTER_X + 100.0, ARENA_CENTER_Y, false),
          (BORDER_ALPHA_MAX, -1))
  }

  // ---------------------------------------------------------------- reset_players

  /** What reset_players sets on one player: full health, no heat, an empty gauge, hyper off, the start position. */
  function Refreshed(s: PlayerState, x: real): PlayerState {
    s.(vitals := s.vitals.(health := MAX_HEALTH, heat := 0.0, hyperGauge := 0.0),
       hyper := s.hyper.(isActive := false),
       body := s.body.(x := x, y := ARENA_CENTER_Y))
  }

  /** reset_players: both players refreshed, the projectiles cleared, both AI timers and walks reset. */
  function ResetMatch(w: World): World {
    w.(p1 := Refreshed(w.p1, ARENA_CENTER_X - 100.0), p2 := Refreshed(w.p2, ARENA_CENTER_X + 100.0),
       projectiles := [], ai1 := AiMemory(0, STILL), ai2 := AiMemory(0, STILL))
  }

  // ---------------------------------------------------------------- the frame rules

  /** A decided match: the result screen, a player down, and player 2 the winner exactly when player 1 is down. */
  predicate Decided(w: World) {
    w.state == RESULT && KnockedOut(w) &&
    w.result == Some(MatchResult(if w.p1.vitals.health <= 0.0 then 2 else 1, 0))
  }

  /**
   * After the fighters, a frame stays in its screen or decides the match;
   * it decides it whenever a player is down at its end, except in an
   * auto-test until knock-out, which it never ends.
   */
  lemma SettleSpec(m: Math, w: World)
    ensures var r := Settle(m, w);
            r.testDuration == w.testDuration && r.testTimer == w.testTimer &&
            (r.state == w.state || Decided(r)) &&
            ((w.state != AUTO_TEST || w.testDuration != UntilKnockout) && KnockedOut(r) ==> Decided(r)) &&
            (w.state == AUTO_TEST && w.testDuration == UntilKnockout ==> r.state == AUTO_TEST)
  {
  }

  /** The auto-test fighters leave the screen and the test settings alone. */
  lemma AutoTestKeepsScreen(m: Math, arena: Arena, w: World, r1: AiDraws, r2: AiDraws)
    requires Lawful(m)
    ensures var a := AutoTestFighters(m, arena, w, r1, r2);
            a.state == w.state && a.testDuration == w.testDuration && a.testTimer == w.testTimer
  {
  }

  /** The versus fighters leave the screen and the test settings alone. */
  lemma VersusKeepsScreen(m: Math, arena: Arena, w: World, held: Intent)
    requires Lawful(m)
    ensures var v := VersusFighters(m, arena, w, held);
            v.state == w.state && v.testDuration == w.testDuration && v.testTimer == w.testTimer
  {
  }

  /**
   * An auto-test frame, its timer advanced: a timed test returns to the
   * title exactly when the timer has reached the duration, moving nobody;
   * a test until knock-out ends exactly when a player was down as the frame
   * began; and any other ending is a decided match.
   */
  lemma AutoTestFrameSpec(m: Math, arena: Arena, w: World, r1: AiDraws, r2: AiDraws)
    requires Lawful(m) && w.state == AUTO_TEST
    ensures var r := AutoTestFrame(m, arena, w, r1, r2);
            (r.state == TITLE || r.state == AUTO_TEST || Decided(r)) &&
            (w.testDuration.Frames? ==> (r.state == TITLE <==> w.testTimer >= w.testDuration.n)) &&
            (r.state == TITLE ==> r.p1 == w.p1 && r.p2 == w.p2 && r.projectiles == w.projectiles) &&
            (w.testDuration == UntilKnockout ==> (r.state != AUTO_TEST <==> KnockedOut(w)))
  {
    if !(w.testDuration.Frames? && w.testTimer >= w.testDuration.n) && !(w.testDuration.UntilKnockout? && KnockedOut(w)) {
      var f := AutoTestFighters(m, arena, w, r1, r2);
      AutoTestKeepsScreen(m, arena, w, r1, r2);
      SettleSpec(m, f);
    }
  }

  /** Outside the fighting screens a frame only advances the clock. */
  lemma IdleFrame(m: Math, arena: Arena, w: World, held: Intent, r1: AiDraws, r2: AiDraws)
    requires Lawful(m) && !InPlay(w.state)
    ensures Frame(m, arena, w, held, r1, r2) == w.(currentTime := w.currentTime + 1)
  {
  }

  /** The auto-test timer counts the auto-test frames and nothing else. */
  lemma TestTimerCounts(m: Math, arena: Arena, w: World, held: Intent, r1: AiDraws, r2: AiDraws)
    requires Lawful(m)
    ensures var r := Frame(m, arena, w, held, r1, r2);
            r.testTimer == if w.state == AUTO_TEST then w.testTimer + 1 else w.testTimer
  {
    if w.state == AUTO_TEST {
      var w2 := AutoTestBegin(arena, w);
      if !(w2.testDuration.Frames? && w2.testTimer >= w2.testDuration.n) && !(w2.testDuration.UntilKnockout? && KnockedOut(w2)) {
        AutoTestKeepsScreen(m, arena, w2, r1, r2);
        SettleSpec(m, AutoTestFighters(m, arena, w2, r1, r2));
      }
    } else if InPlay(w.state) {
      VersusKeepsScreen(m, arena, Begin(arena, w), held);
      SettleSpec(m, VersusFighters(m, arena, Begin(arena, w), held));
    }
  }

  /**
   * A timed auto-test returns to the title exactly when the advanced timer
   * reaches the duration, and that frame moves nobody.
   */
  lemma TimedTestEnds(m: Math, arena: Arena, w: World, held: Intent, r1: AiDraws, r2: AiDraws)
    requires Lawful(m) && w.state == AUTO_TEST && w.testDuration.Frames?
    ensures var r := Frame(m, arena, w, held, r1, r2);
            (r.state == TITLE <==> w.testTimer + 1 >= w.testDuration.n) &&
            (r.state == TITLE ==> r.p1 == w.p1 && r.p2 == w.p2 && r.projectiles == w.projectiles)
  {
    AutoTestFrameSpec(m, arena, AutoTestBegin(arena, w), r1, r2);
  }

  /**
   * An auto-test until knock-out ends in the result screen exactly when a
   * player was already down as the frame began; a knock-out during the
   * frame leaves it running until the next one.
   */
  lemma KnockoutTestEnds(m: Math, arena: Arena, w: World, held: Intent, r1: AiDraws, r2: AiDraws)
    requires Lawful(m) && w.state == AUTO_TEST && w.testDuration == UntilKnockout
    ensures var r := Frame(m, arena, w, held, r1, r2);
            (r.state == RESULT <==> KnockedOut(w)) && (r.state == RESULT || r.state == AUTO_TEST)
  {
    AutoTestFrameSpec(m, arena, AutoTestBegin(arena, w), r1, r2);
  }

  /**
   * In versus and training a frame ends in the result screen exactly when a
   * player is down at its end, and otherwise stays in its screen; the
   * training screen does not revive a downed player.
   */
  lemma VersusEnds(m: Math, arena: Arena, w: World, held: Intent, r1: AiDraws, r2: AiDraws)
    requires Lawful(m) && (w.state == GAME || w.state == TRAINING)
    ensures var r := Frame(m, arena, w, held, r1, r2);
            (r.state == RESULT <==> KnockedOut(r)) && (r.state != RESULT ==> r.state == w.state)
  {
    VersusKeepsScreen(m, arena, Begin(arena, w), held);
    SettleSpec(m, VersusFighters(m, arena, Begin(arena, w), held));
  }

  /** Whenever a frame decides the match, player 2 is the winner exactly when player 1 is down, and player 1 otherwise. */
  lemma WinnerRule(m: Math, arena: Arena, w: World, held: Intent, r1: AiDraws, r2: AiDraws)
    requires Lawful(m) && w.state != RESULT
    ensures var r := Frame(m, arena, w, held, r1, r2);
            r.state == RESULT ==>
              KnockedOut(r) && r.result.Some? && r.result.value.timer == 0 &&
              (r.result.value.winner == 2 <==> r.p1.vitals.health <= 0.0) &&
              (r.result.value.winner == 1 <==> r.p1.vitals.health > 0.0)
  {
    if w.state == AUTO_TEST {
      AutoTestFrameSpec(m, arena, AutoTestBegin(arena, w), r1, r2);
    } else if InPlay(w.state) {
      VersusKeepsScreen(m, arena, Begin(arena, w), held);
      SettleSpec(m, VersusFighters(m, arena, Begin(arena, w), held));
    }
  }
}
