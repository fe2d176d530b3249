/**
 * The Game object of game/game.py, as far as a frame of the match goes:
 * its fields hold the screen, the clocks, the auto-test settings, the two
 * AI memories, the projectile list and the key-configuration screen, and it
 * owns the arena and the two players. Every method updates them statement
 * by statement and is proved against the value-level rules of MatchRules:
 * `Update` is one `Frame`, `HandleCollisions` is `Collide`, `ResetPlayers`
 * is `ResetMatch`. `Valid` is what holds between frames.
 */
module GameModel {
  import opened Numeric
  import opened Constants
  import opened Wrappers
  import opened Projectiles
  import opened ArenaModel
  import opened PlayerRules
  import opened PlayerModel
  import opened PlayerProperties
  import opened CollisionRules
  import opened AiRules
  import opened KeyConfig
  import opened MatchRules
  import opened MatchProperties

  /** The key-configuration screen: the installed tables, whose keys are edited, the highlighted action, and whether a key is awaited. */
  datatype KeyMenu = KeyMenu(bindings: Bindings, player: int, selected: int, waiting: bool)

  class Game {
    const arena: Arena
    const player1: Player
    const player2: Player
    var state: GameState
    var previousState: Option<GameState>
    var currentTime: int
    var result: Option<MatchResult>
    var testTimer: int
    var testDuration: Duration
    var ai1: AiMemory
    var ai2: AiMemory
    var projectiles: seq<ProjectileState>
    var keyConfig: KeyMenu

    /** The fields a frame reads or writes, as a value. */
    function Snapshot(): World
      reads this, arena, player1, player2
    {
      World(state, previousState, currentTime, result, testTimer, testDuration, ai1, ai2,
            projectiles, player1.State(), player2.State(), (arena.borderAlpha, arena.borderAlphaDirection))
    }

    /**
     * Between frames: two distinct players on their own sides keeping their
     * invariant, well-formed projectiles, a blinking border within its band,
     * key tables that are dicts with the legacy table equal to player 1's,
     * and a highlighted action that exists.
     */
    ghost predicate Valid()
      reads this, arena, player1, player2
    {
      player1 != player2 && arena.Valid() && WorldOk(Snapshot()) &&
      Keyed(keyConfig.bindings.p1) && Keyed(keyConfig.bindings.p2) &&
      keyConfig.bindings.legacy == keyConfig.bindings.p1 &&
      0 <= keyConfig.selected < |ACTIONS|
    }

    /** Game.__init__ without the screen, the fonts and the sounds; `config` is what the key-configuration file held. */
    constructor (config: Option<Config>)
      ensures Valid()
      ensures Snapshot() == Opening()
      ensures keyConfig == KeyMenu(Loaded(config), 1, 0, false)
    {
      state := TITLE;
      arena := new Arena();
      player1 := new Player(ARENA_CENTER_X - 100.0, ARENA_CENTER_Y, true);
      player2 := new Player(ARENA_CENTER_X + 100.0, ARENA_CENTER_Y, false);
      previousState := None;
      result := None;
      projectiles := [];
      currentTime := 0;
      testTimer := 0;
      testDuration := Frames(INITIAL_TEST_DURATION);
      ai1 := AiMemory(0, STILL);
      ai2 := AiMemory(0, STILL);
      keyConfig := KeyMenu(Bindings([], [], []), 1, 0, false);
      new;
      var b := LoadKeyConfig(config);
      keyConfig := keyConfig.(bindings := b);
      assert Snapshot() == Opening();
      OpeningOk();
      LoadedWellFormed(config);
    }

    // -------------------------------------------------------------- the fighters

    /** player1.update: player 1 moves against player 2, its shots appended to the list. */
    method UpdatePlayer1(m: Math, keys: Intent)
      requires Lawful(m) && player1 != player2
      modifies this, player1
      ensures keyConfig == old(keyConfig)
      ensures Snapshot() == MatchRules.MovePlayer1(m, arena, old(Snapshot()), keys)
    {
      var shots := player1.Update(m, arena, Pos(player2.State()), keys);
      projectiles := projectiles + shots;
    }

    /** player2.update: player 2 moves against player 1, its shots appended to the list. */
    method UpdatePlayer2(m: Math, keys: Intent)
      requires Lawful(m) && player1 != player2
      modifies this, player2
      ensures keyConfig == old(keyConfig)
      ensures Snapshot() == MatchRules.MovePlayer2(m, arena, old(Snapshot()), keys)
    {
      var shots := player2.Update(m, arena, Pos(player1.State()), keys);
      projectiles := projectiles + shots;
    }

    /** The auto-test AI players' turn: both AI timers tick, then both choose their keys from the frame's starting positions. */
    method ChooseAutoTestKeys(m: Math, r1: AiDraws, r2: AiDraws) returns (k1: Intent, k2: Intent)
      modifies this
      ensures keyConfig == old(keyConfig)
      ensures (Snapshot(), k1, k2) == AutoTestMinds(m, old(Snapshot()), r1, r2)
    {
      ai1 := ai1.(timer := ai1.timer + 1);
      ai2 := ai2.(timer := ai2.timer + 1);
      var c1 := AutoTestControl(m, player1.State(), Pos(player2.State()), projectiles, ai1, AI_MOVE_INTERVAL, r1);
      var c2 := AutoTestControl(m, player2.State(), Pos(player1.State()), projectiles, ai2, AI_MOVE_INTERVAL, r2);
      ai1, ai2 := c1.1, c2.1;
      k1, k2 := c1.0, c2.0;
    }

    /** The auto-test branch's fighters: the AI players choose, then player 1 and player 2 move. */
    method RunAutoTestFighters(m: Math, r1: AiDraws, r2: AiDraws)
      requires Lawful(m) && player1 != player2
      modifies this, player1, player2
      ensures keyConfig == old(keyConfig)
      ensures Snapshot() == MatchRules.AutoTestFighters(m, arena, old(Snapshot()), r1, r2)
    {
      var k1, k2 := ChooseAutoTestKeys(m, r1, r2);
      UpdatePlayer1(m, k1);
      UpdatePlayer2(m, k2);
    }

    /** The versus and training branch's fighters: player 1 on the held keys, then, in versus mode, player 2 on the simple AI's keys. */
    method RunVersusFighters(m: Math, held: Intent)
      requires Lawful(m) && player1 != player2
      modifies this, player1, player2
      ensures keyConfig == old(keyConfig)
      ensures Snapshot() == MatchRules.VersusFighters(m, arena, old(Snapshot()), held)
    {
      UpdatePlayer1(m, held);
      if state == GAME {
        var aiKeys := SimpleAiControl(m, player1.State(), player2.State(), currentTime);
        UpdatePlayer2(m, aiKeys);
      }
    }

    // -------------------------------------------------------------- projectiles and collisions

    /** The projectile loop of update: each projectile flies one frame, and the dead ones leave the list. */
    method UpdateProjectiles(m: Math)
      modifies this
      ensures keyConfig == old(keyConfig)
      ensures Snapshot() == Flown(m, old(Snapshot()))
    {
      var a, b := Point(player1.body.x, player1.body.y), Point(player2.body.x, player2.body.y);
      var ps := projectiles;
      var kept: seq<ProjectileState> := [];
      for i := 0 to |ps|
        invariant kept == Survivors(m, ps[..i], a, b)
      {
        var q := UpdateRule(m, ps[i], a, b);
        assert ps[..i + 1][..i] == ps[..i];
        if !q.isDead {
          kept := kept + [q];
        }
      }
      assert ps[..|ps|] == ps;
      projectiles := kept;
    }

    /**
     * handle_collisions: every projectile of the list, in order, is checked
     * against player 1 and then player 2, and the projectiles not removed
     * stay in the list in their order.
     */
    method HandleCollisions(m: Math)
      requires player1 != player2
      modifies this, player1, player2
      ensures keyConfig == old(keyConfig)
      ensures Snapshot() == Collide(m, old(Snapshot()))
    {
      ghost var w := Snapshot();
      var ps := projectiles;
      var kept: seq<ProjectileState> := [];
      for i := 0 to |ps|
        invariant unchanged(this)
        invariant Field(player1.State(), player2.State(), kept) == ResolveAll(m, w.p1, w.p2, ps[..i])
      {
        assert ps[..i + 1][..i] == ps[..i];
        kept := Resolve(m, ps[i], kept);
      }
      assert ps[..|ps|] == ps;
      projectiles := kept;
    }

    /**
     * One iteration of handle_collisions: a hit on an unshielded player costs
     * it the heat-scaled damage, credits the owner's gauge and drops the
     * projectile; a hit on a shield reflects the projectile, which stays;
     * a miss keeps it.
     */
    method Resolve(m: Math, p: ProjectileState, kept: seq<ProjectileState>) returns (kept': seq<ProjectileState>)
      requires player1 != player2
      modifies player1, player2
      ensures Field(player1.State(), player2.State(), kept') ==
              ResolveOne(m, Field(old(player1.State()), old(player2.State()), kept), p)
    {
      kept' := kept;
      if p.owner != 0 && player1.CollidesWith(m, p) {
        if !player1.IsShielding() {
          var damage := p.damage * (1.0 + player1.vitals.heat / 100.0);
          player1.TakeDamage(damage);
          player2.vitals := player2.vitals.(hyperGauge := OnHitRule(p, player2.vitals.hyperGauge).1);
        } else {
          kept' := kept + [ReflectRule(p, 0)];
        }
      } else if p.owner != 1 && player2.CollidesWith(m, p) {
        if !player2.IsShielding() {
          var damage := p.damage * (1.0 + player2.vitals.heat / 100.0);
          player2.TakeDamage(damage);
          player1.vitals := player1.vitals.(hyperGauge := OnHitRule(p, player1.vitals.hyperGauge).1);
        } else {
          kept' := kept + [ReflectRule(p, 1)];
        }
      } else {
        kept' := kept + [p];
      }
    }

    /** The end of a fight frame: the projectiles fly, the collisions are resolved, and a knock-out decides the match. */
    method FinishFrame(m: Math)
      requires player1 != player2
      modifies this, player1, player2
      ensures keyConfig == old(keyConfig)
      ensures Snapshot() == Settle(m, old(Snapshot()))
    {
      UpdateProjectiles(m);
      HandleCollisions(m);
      if (state != AUTO_TEST || testDuration != UntilKnockout) &&
         (player1.vitals.health <= 0.0 || player2.vitals.health <= 0.0) {
        state := RESULT;
        result := Some(MatchResult(if player1.vitals.health <= 0.0 then 2 else 1, 0));
      }
    }

    /** The auto-test branch once its timer has advanced: the two exits, or a fight frame between the two AI players. */
    method RunAutoTest(m: Math, r1: AiDraws, r2: AiDraws)
      requires Lawful(m) && player1 != player2
      modifies this, player1, player2
      ensures keyConfig == old(keyConfig)
      ensures Snapshot() == AutoTestFrame(m, arena, old(Snapshot()), r1, r2)
    {
      if testDuration.Frames? && testTimer >= testDuration.n {
        state := TITLE;
        return;
      }
      if testDuration.UntilKnockout? && (player1.vitals.health <= 0.0 || player2.vitals.health <= 0.0) {
        state := RESULT;
        result := Some(MatchResult(if player1.vitals.health <= 0.0 then 2 else 1, 0));
        return;
      }
      RunAutoTestFighters(m, r1, r2);
      FinishFrame(m);
    }

    /** The start of a fight frame: the clock advances, the screen is remembered for the pause menu, and the border blinks. */
    method BeginFight()
      requires Valid()
      modifies this, arena
      ensures Valid() && keyConfig == old(keyConfig)
      ensures Snapshot() == Begin(arena, old(Snapshot()))
    {
      currentTime := currentTime + 1;
      previousState := Some(state);
      arena.Update();
    }

    /** The auto-test branch of update once the frame has begun and the test timer has advanced, keeping the invariant. */
    method AutoTestRest(m: Math, r1: AiDraws, r2: AiDraws)
      requires Lawful(m) && Valid()
      modifies this, player1, player2
      ensures Valid() && keyConfig == old(keyConfig)
      ensures Snapshot() == AutoTestFrame(m, arena, old(Snapshot()), r1, r2)
    {
      ghost var w := Snapshot();
      RunAutoTest(m, r1, r2);
      AutoTestFrameOk(m, arena, w, r1, r2);
    }

    /** The versus and training branch of update once the frame has begun, keeping the invariant. */
    method VersusRest(m: Math, held: Intent)
      requires Lawful(m) && Valid()
      modifies this, player1, player2
      ensures Valid() && keyConfig == old(keyConfig)
      ensures Snapshot() == Settle(m, VersusFighters(m, arena, old(Snapshot()), held))
    {
      ghost var w := Snapshot();
      RunVersusFighters(m, held);
      ghost var fought := Snapshot();
      VersusFightersOk(m, arena, w, held);
      FinishFrame(m);
      SettleOk(m, fought);
    }

    /** test_timer counts one more frame of the automatic test. */
    method TickTestTimer()
      requires Valid()
      modifies this
      ensures Valid() && keyConfig == old(keyConfig)
      ensures Snapshot() == CountTestFrame(old(Snapshot()))
    {
      testTimer := testTimer + 1;
    }

    /** The auto-test branch of update: the frame begins, the test timer advances, then the rest of the frame. */
    method AutoTestUpdate(m: Math, r1: AiDraws, r2: AiDraws)
      requires Lawful(m) && Valid()
      modifies this, arena, player1, player2
      ensures Valid() && keyConfig == old(keyConfig)
      ensures Snapshot() == AutoTestFrame(m, arena, AutoTestBegin(arena, old(Snapshot())), r1, r2)
    {
      ghost var w := Snapshot();
      BeginFight();
      TickTestTimer();
      assert Snapshot() == AutoTestBegin(arena, w);
      AutoTestRest(m, r1, r2);
    }

    /** The versus and training branch of update: the frame begins, then the fighters and the rest of the frame. */
    method VersusUpdate(m: Math, held: Intent)
      requires Lawful(m) && Valid()
      modifies this, arena, player1, player2
      ensures Valid() && keyConfig == old(keyConfig)
      ensures Snapshot() == Settle(m, VersusFighters(m, arena, Begin(arena, old(Snapshot())), held))
    {
      BeginFight();
      VersusRest(m, held);
    }

    /**
     * update: one frame. `held` is keys_pressed, the keys the human player
     * holds; `r1` and `r2` are the random draws of the two auto-test AI
     * players. Outside the fighting screens only the clock advances.
     */
    method Update(m: Math, held: Intent, r1: AiDraws, r2: AiDraws)
      requires Lawful(m) && Valid()
      modifies this, arena, player1, player2
      ensures Valid() && keyConfig == old(keyConfig)
      ensures Snapshot() == Frame(m, arena, old(Snapshot()), held, r1, r2)
    {
      if state == AUTO_TEST {
        AutoTestUpdate(m, r1, r2);
      } else if state == GAME || state == TRAINING {
        VersusUpdate(m, held);
      } else {
        Idle();
      }
    }

    /** update outside the fighting screens: only the clock advances. */
    method Idle()
      requires Valid()
      modifies this
      ensures Valid() && keyConfig == old(keyConfig)
      ensures Snapshot() == Tock(old(Snapshot()))
    {
      currentTime := currentTime + 1;
    }

    // -------------------------------------------------------------- reset_players

    /** reset_players: both players refreshed at their start positions, the list cleared, both AI memories reset. */
    method ResetPlayers()
      requires Valid()
      modifies this, player1, player2
      ensures Valid() && keyConfig == old(keyConfig)
      ensures Snapshot() == ResetMatch(old(Snapshot()))
    {
      ghost var w := Snapshot();
      player1.vitals := player1.vitals.(health := MAX_HEALTH, heat := 0.0, hyperGauge := 0.0);
      player1.hyper := player1.hyper.(isActive := false);
      player1.body := player1.body.(x := ARENA_CENTER_X - 100.0, y := ARENA_CENTER_Y);
      player2.vitals := player2.vitals.(health := MAX_HEALTH, heat := 0.0, hyperGauge := 0.0);
      player2.hyper := player2.hyper.(isActive := false);
      player2.body := player2.body.(x := ARENA_CENTER_X + 100.0, y := ARENA_CENTER_Y);
      projectiles := [];
      ai1 := AiMemory(0, STILL);
      ai2 := AiMemory(0, STILL);
      assert Snapshot() == ResetMatch(w);
      ResetMatchOk(w);
    }

    // -------------------------------------------------------------- the key-configuration screen

    /**
     * The key-configuration branch of handle_keydown: when a key is awaited,
     * the highlighted action is bound to `key` alone in the edited player's
     * table (player 1's also becomes the legacy table), and the next action
     * is highlighted. Any other key press is not part of this model and
     * leaves everything as it was.
     */
    method RemapKey(key: Key) returns (handled: bool)
      requires Valid()
      modifies this
      ensures Valid() && Snapshot() == old(Snapshot())
      ensures handled <==> old(state) == KEY_CONFIG && old(keyConfig.waiting)
      ensures !handled ==> keyConfig == old(keyConfig)
      ensures handled ==>
                !keyConfig.waiting && keyConfig.player == old(keyConfig.player) &&
                keyConfig.selected == (old(keyConfig.selected) + 1) % |ACTIONS|
      ensures handled && old(keyConfig.player) == 1 ==>
                keyConfig.bindings.p2 == old(keyConfig.bindings.p2) &&
                forall j :: Lookup(keyConfig.bindings.p1, j) ==
                              Remapped(old(keyConfig.bindings.p1), key, ACTIONS[old(keyConfig.selected)], j)
      ensures handled && old(keyConfig.player) == 2 ==>
                keyConfig.bindings.p1 == old(keyConfig.bindings.p1) &&
                forall j :: Lookup(keyConfig.bindings.p2, j) ==
                              Remapped(old(keyConfig.bindings.p2), key, ACTIONS[old(keyConfig.selected)], j)
      ensures handled && old(keyConfig.player) != 1 && old(keyConfig.player) != 2 ==>
                keyConfig.bindings == old(keyConfig.bindings)
    {
      handled := state == KEY_CONFIG && keyConfig.waiting;
      if !handled {
        return;
      }
      var action := ACTIONS[keyConfig.selected];
      var b := keyConfig.bindings;
      if keyConfig.player == 1 {
        var p1 := RemoveAction(b.p1, action);
        p1 := Put(p1, key, action);
        b := b.(p1 := p1, legacy := p1);
      } else if keyConfig.player == 2 {
        var p2 := RemoveAction(b.p2, action);
        p2 := Put(p2, key, action);
        b := b.(p2 := p2);
      }
      keyConfig := keyConfig.(bindings := b, selected := (keyConfig.selected + 1) % |ACTIONS|, waiting := false);
    }
  }
}
