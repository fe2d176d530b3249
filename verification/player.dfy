/**
 * The Player object of game/player.py. Its attributes are kept in place,
 * grouped by concern into the records of PlayerRules (body, dash, vitals,
 * hyper, shield, guns, keys), and every method updates them statement by
 * statement in the source's order and is proved to perform the
 * corresponding rule on the value `State()`. Projectiles the player fires
 * are returned to the caller, which adds them to the game's list.
 */
module PlayerModel {
  import opened Numeric
  import opened Constants
  import opened Projectiles
  import opened ArenaModel
  import opened PlayerRules

  class Player {
    const initialX: real
    const initialY: real
    const isPlayer1: bool
    var body: Body
    var dash: DashState
    var vitals: Vitals
    var hyper: HyperState
    var shield: ShieldState
    var guns: Guns
    var keys: Intent

    /** The player's attributes as a value. */
    function State(): PlayerState
      reads this
    {
      PlayerState(initialX, initialY, isPlayer1, body, dash, vitals, hyper, shield, guns, keys)
    }

    constructor (x: real, y: real, player1: bool)
      ensures State() == Initial(x, y, player1)
    {
      initialX, initialY, isPlayer1 := x, y, player1;
      body := Body(x, y, x, y, 0.0);
      dash := DashState(false, 0, 0.0, 0.0, 0, []);
      vitals := Vitals(MAX_HEALTH, 0.0, 0.0, false, 0.0);
      hyper := HyperState(false, 0, false);
      shield := ShieldState(false, 0, 0);
      guns := Guns(0, false, 0, 0, 0.0, false);
      keys := NO_KEYS;
    }

    /** reset. */
    method Reset()
      modifies this
      ensures State() == PlayerRules.Reset(old(State()))
    {
      body := body.(x := initialX, y := initialY);
      dash := DashState(false, 0, 0.0, 0.0, 0, []);
      guns := guns.(shootCooldown := 0);
      vitals := Vitals(MAX_HEALTH, 0.0, MAX_HYPER / 2.0, false, OVERHEAT_COOLDOWN);
      hyper := hyper.(isActive := false, duration := 0);
      shield := ShieldState(false, 0, 0);
      guns := guns.(burstActive := false, burstCount := 0, burstTimer := 0);
      keys := NO_KEYS;
    }

    /** is_shielding. */
    function IsShielding(): (r: bool)
      reads this
      ensures r <==> State().shield.isActive
    {
      shield.isActive
    }

    /** collides_with. */
    function CollidesWith(m: Math, p: ProjectileState): (r: bool)
      reads this
      ensures r == PlayerRules.CollidesWith(m, State(), p)
    {
      Dist(m, body.x, body.y, p.x, p.y) < PLAYER_RADIUS + p.radius
    }

    /** take_damage. */
    method TakeDamage(amount: real)
      modifies this
      ensures State() == PlayerRules.TakeDamage(old(State()), amount)
    {
      if !shield.isActive {
        vitals := vitals.(health := vitals.health - amount);
        vitals := vitals.(hyperGauge := Min(MAX_HYPER, vitals.hyperGauge + amount / 5.0));
      }
    }

    /** update(keys, arena, opponent): one frame; returns every projectile fired, in order. */
    method Update(m: Math, arena: Arena, opponent: Point, newKeys: Intent) returns (shots: seq<ProjectileState>)
      requires Lawful(m)
      modifies this
      ensures Fired(State(), shots) == Tick(m, arena, old(State()), opponent, newKeys)
    {
      shots := UpdateBeforeWeapons(m, arena, opponent, newKeys);
      var fired := HandleWeapons(m, opponent);
      shots := shots + fired;
    }

    /** update up to the weapons: facing, move, heat, rings, cooldowns, burst, heat decay, hyper, border, shield. */
    method UpdateBeforeWeapons(m: Math, arena: Arena, opponent: Point, newKeys: Intent) returns (shots: seq<ProjectileState>)
      requires Lawful(m)
      modifies this
      ensures Fired(State(), shots) == PreWeapons(m, arena, old(State()), opponent, newKeys)
    {
      ghost var s0 := State();
      FaceOpponent(m, opponent, newKeys);
      ghost var s1 := State();
      Move(m, arena);
      UpdateHeatFromMotion(m);
      ghost var s2 := State();
      assert s2 == HeatFromMotion(m, MoveRule(m, arena, s1));
      AgeDashRings();
      TickCountdowns();
      ghost var s3 := State();
      assert s3 == TickCooldowns(s2.(dash := s2.dash.(rings := AgeRings(s2.dash.rings))));
      shots := TickBurst(m);
      ghost var b := Fired(State(), shots);
      assert b == BurstTick(m, s3);
      DecayHeat();
      TickHyper();
      DrainAtBorder(m, arena);
      UpdateShield();
      assert State() == ShieldStep(BorderDrain(m, arena, HyperTick(PlayerRules.DecayHeat(b.state))));
    }

    /** The start of update: store the keys, face the opponent and remember the position. */
    method FaceOpponent(m: Math, opponent: Point, newKeys: Intent)
      modifies this
      ensures State() == Face(m, old(State()).(keys := newKeys), opponent)
    {
      keys := newKeys;
      body := body.(facingAngle := m.atan2(opponent.y - body.y, opponent.x - body.x));
      body := body.(prevX := body.x, prevY := body.y);
    }

    /** The dash and shot cooldown countdowns of update. */
    method TickCountdowns()
      modifies this
      ensures State() == TickCooldowns(old(State()))
    {
      if dash.cooldown > 0 {
        dash := dash.(cooldown := dash.cooldown - 1);
      }
      if guns.shootCooldown > 0 {
        guns := guns.(shootCooldown := guns.shootCooldown - 1);
      }
    }

    /** move: the key direction, starting or releasing the dash, steering it, then the step. */
    method Move(m: Math, arena: Arena)
      requires Lawful(m)
      modifies this
      ensures State() == MoveRule(m, arena, old(State()))
    {
      var d := Direction(m, keys);
      var hasInput := HasInput(keys);
      StartOrStopDash(d, hasInput);
      if dash.isDashing {
        SteerWhileDashing(m, d, hasInput);
      }
      Displacement(m, arena, d);
    }

    /** The dashing branch of move: the overheat cut-off again, then steering when there is input. */
    method SteerWhileDashing(m: Math, d: Point, hasInput: bool)
      modifies this
      ensures State() == DashSteer(m, old(State()), d, hasInput)
    {
      if vitals.heat >= MAX_HEAT {
        dash := dash.(isDashing := false);
        vitals := vitals.(isOverheated := true);
      }
      if hasInput {
        SteerDash(m, d);
      }
    }

    /** The end of move: step at walking or dash speed, clamp into the arena, and restart the dash cooldown. */
    method Displacement(m: Math, arena: Arena, d: Point)
      modifies this
      ensures State() == Displace(m, arena, old(State()), d)
    {
      var speed := if dash.isDashing then PLAYER_DASH_SPEED else PLAYER_SPEED;
      var moveX, moveY;
      if dash.isDashing {
        moveX, moveY := dash.dirX * speed, dash.dirY * speed;
      } else {
        moveX, moveY := d.x * speed, d.y * speed;
      }
      body := body.(x := body.x + moveX, y := body.y + moveY);
      var p := arena.ConstrainPosition(m, body.x, body.y);
      body := body.(x := p.x, y := p.y);
      if dash.isDashing {
        dash := dash.(cooldown := DASH_COOLDOWN);
      }
    }

    /** The first half of move after the direction: the overheat cut-off, then starting or releasing the dash. */
    method StartOrStopDash(d: Point, hasInput: bool)
      modifies this
      ensures State() == DashControl(OverheatStop(old(State())), d, hasInput)
    {
      if vitals.heat >= MAX_HEAT {
        dash := dash.(isDashing := false);
        vitals := vitals.(isOverheated := true);
      }
      if keys.dash && dash.cooldown <= 0 && !dash.isDashing && hasInput && vitals.heat < DASH_HEAT_LIMIT {
        dash := dash.(isDashing := true, dirX := d.x, dirY := d.y);
        if !vitals.isOverheated {
          vitals := vitals.(heat := Min(MAX_HEAT, vitals.heat + DASH_START_HEAT));
        }
        dash := dash.(rings := dash.rings + [NewRing(body.x, body.y, d.x, d.y)]);
        dash := dash.(ringCounter := 0);
      } else if !keys.dash {
        dash := dash.(isDashing := false);
      }
    }

    /** Steering while dashing with input: turn the heading, renormalise, and drop a ring every fourth frame. */
    method SteerDash(m: Math, d: Point)
      modifies this
      ensures State() == old(State()).(dash := Steer(m, old(dash), old(body.x), old(body.y), d))
    {
      var h := TurnedHeading(m, dash, d);
      dash := dash.(dirX := h.x, dirY := h.y);
      dash := dash.(ringCounter := dash.ringCounter + 1);
      if dash.ringCounter >= DASH_RING_INTERVAL {
        dash := dash.(rings := dash.rings + [NewRing(body.x, body.y, dash.dirX, dash.dirY)], ringCounter := 0);
      }
    }

    /** The speed-based heating of update. */
    method UpdateHeatFromMotion(m: Math)
      modifies this
      ensures State() == HeatFromMotion(m, old(State()))
    {
      var moved := Dist(m, body.x, body.y, body.prevX, body.prevY);
      if moved > PLAYER_SPEED && !vitals.isOverheated {
        var factor := (moved - PLAYER_SPEED) / (PLAYER_DASH_SPEED - PLAYER_SPEED);
        vitals := vitals.(heat := Min(MAX_HEAT, vitals.heat + factor * 4.0));
      }
    }

    /** The ring loop of update: age each ring and keep the ones still alive, in order. */
    method AgeDashRings()
      modifies this
      ensures State() == old(State()).(dash := old(dash).(rings := AgeRings(old(dash.rings))))
    {
      var rings := dash.rings;
      var kept: seq<DashRing> := [];
      var i := 0;
      while i < |rings|
        invariant 0 <= i <= |rings|
        invariant kept == AgeRings(rings[..i])
      {
        var ring := rings[i].(duration := rings[i].duration - 1);
        if ring.duration > 0 {
          kept := kept + [ring];
        }
        assert rings[..i + 1][..i] == rings[..i];
        i := i + 1;
      }
      assert rings[..i] == rings;
      dash := dash.(rings := kept);
    }

    /** The weapon-B burst part of update. */
    method TickBurst(m: Math) returns (shots: seq<ProjectileState>)
      modifies this
      ensures Fired(State(), shots) == BurstTick(m, old(State()))
    {
      shots := [];
      if guns.burstActive {
        guns := guns.(burstTimer := guns.burstTimer - 1);
        if guns.burstTimer <= 0 && guns.burstCount < BURST_TOTAL {
          if guns.isSpecialSpreadActive {
            shots := FireSpecialSpreadShot(m);
          } else {
            var p := FireWeaponBBurstShot(m);
            shots := [p];
          }
          guns := guns.(burstCount := guns.burstCount + 1);
          if guns.burstCount < BURST_TOTAL {
            guns := guns.(burstTimer := BURST_DELAY);
          } else {
            guns := guns.(burstActive := false, isSpecialSpreadActive := false);
          }
        }
      }
    }

    /** The heat-cooling part of update. */
    method DecayHeat()
      modifies this
      ensures State() == PlayerRules.DecayHeat(old(State()))
    {
      if vitals.heat > 0.0 && !dash.isDashing {
        vitals := vitals.(heat := vitals.heat - HEAT_DECREASE_RATE);
        if vitals.heat >= MAX_HEAT {
          vitals := vitals.(isOverheated := true);
        } else if vitals.isOverheated && vitals.heat <= vitals.overheatCooldown {
          vitals := vitals.(isOverheated := false);
        }
      }
    }

    /** The hyper-mode part of update. */
    method TickHyper()
      modifies this
      ensures State() == HyperTick(old(State()))
    {
      if hyper.isActive {
        hyper := hyper.(duration := hyper.duration - 1);
        vitals := vitals.(hyperGauge := vitals.hyperGauge - HYPER_CONSUMPTION_RATE);
        if vitals.hyperGauge <= 0.0 || hyper.duration <= 0 {
          hyper := hyper.(isActive := false);
          vitals := vitals.(hyperGauge := Max(0.0, vitals.hyperGauge));
        }
      }
    }

    /** The warning-band drain of update. */
    method DrainAtBorder(m: Math, arena: Arena)
      modifies this
      ensures State() == BorderDrain(m, arena, old(State()))
    {
      if arena.IsNearBorder(m, body.x, body.y) && dash.isDashing {
        if vitals.hyperGauge > 0.0 {
          vitals := vitals.(hyperGauge := vitals.hyperGauge - HYPER_DECREASE_RATE_AT_BORDER);
        }
      }
    }

    /** The shield part of update: activation, then the countdown. */
    method UpdateShield()
      modifies this
      ensures State() == ShieldStep(old(State()))
    {
      if keys.shield && shield.cooldown <= 0 && vitals.hyperGauge >= SHIELD_COST {
        shield := shield.(cooldown := SHIELD_DURATION, durationCounter := SHIELD_DURATION, isActive := true);
        vitals := vitals.(hyperGauge := vitals.hyperGauge - SHIELD_COST);
      }
      if shield.cooldown > 0 {
        shield := shield.(cooldown := shield.cooldown - 1);
        shield := shield.(durationCounter := shield.cooldown);
        if shield.cooldown <= 0 {
          shield := shield.(isActive := false, durationCounter := 0);
        }
      }
    }

    /** create_projectile_with_angle. */
    method CreateProjectileWithAngle(m: Math, w: Weapon, angle: real) returns (p: ProjectileState)
      modifies this
      ensures Fired(State(), [p]) == PlayerRules.CreateProjectileWithAngle(m, old(State()), w, angle)
    {
      var multiplier := if hyper.isActive then 2.0 else 1.0;
      var damage := w.damage * multiplier;
      var owner := if isPlayer1 then 0 else 1;
      match w.kind {
        case BeamType => p := SpawnBeam(body.x, body.y, angle, damage, owner);
        case BallisticType => p := SpawnBallistic(body.x, body.y, angle, damage, owner);
        case MeleeType => p := SpawnMelee(m, body.x, body.y, angle, damage, owner);
      }
      vitals := vitals.(heat := Min(MAX_HEAT, vitals.heat + SHOT_HEAT));
      vitals := vitals.(hyperGauge := Min(MAX_HYPER, vitals.hyperGauge + SHOT_HYPER_GAIN));
    }

    /** create_projectile. */
    method CreateProjectile(m: Math, w: Weapon, opponent: Point) returns (p: ProjectileState)
      modifies this
      ensures Fired(State(), [p]) == PlayerRules.CreateProjectile(m, old(State()), w, opponent)
    {
      var angle := m.atan2(opponent.y - body.y, opponent.x - body.x);
      p := CreateProjectileWithAngle(m, w, angle);
    }

    /** _fire_weapon_b_burst_shot. */
    method FireWeaponBBurstShot(m: Math) returns (p: ProjectileState)
      modifies this
      ensures Fired(State(), [p]) == FireBurstShot(m, old(State()))
    {
      var angle := guns.burstBaseAngle + (guns.burstCount - 2) as real * (PI / 8.0);
      p := CreateProjectileWithAngle(m, WEAPON_B, angle);
      p := p.(speed := p.speed / 2.0, damage := p.damage / 2.0, lifetime := p.lifetime * 4);
    }

    /** _fire_special_spread_shot. */
    method FireSpecialSpreadShot(m: Math) returns (shots: seq<ProjectileState>)
      modifies this
      ensures Fired(State(), shots) == FireSpreadShot(m, old(State()))
    {
      var angle1 := guns.burstBaseAngle + (guns.burstCount - 2) as real * (PI / 8.0);
      var angle2 := guns.burstBaseAngle + ((guns.burstCount - 2) as real * (PI / 8.0) + PI / 16.0);
      var p1 := CreateProjectileWithAngle(m, SPECIAL_B, angle1);
      p1 := p1.(speed := p1.speed / 2.0, lifetime := p1.lifetime * 4);
      var p2 := CreateProjectileWithAngle(m, SPECIAL_B, angle2);
      p2 := p2.(speed := p2.speed / 2.0, lifetime := p2.lifetime * 4);
      shots := [p1, p2];
    }

    /** activate_hyper. */
    method ActivateHyper()
      modifies this
      ensures State() == PlayerRules.ActivateHyper(old(State()))
    {
      if vitals.hyperGauge >= HYPER_ACTIVATION_COST {
        hyper := hyper.(isActive := true, hasFiredLaser := false);
        vitals := vitals.(hyperGauge := vitals.hyperGauge - HYPER_ACTIVATION_COST);
        hyper := hyper.(duration := HYPER_DURATION);
      }
    }

    /** handle_weapons; returns the projectiles fired, in order. */
    method HandleWeapons(m: Math, opponent: Point) returns (shots: seq<ProjectileState>)
      modifies this
      ensures Fired(State(), shots) == PlayerRules.HandleWeapons(m, old(State()), opponent)
    {
      shots := [];
      if shield.isActive {
        return;
      }
      var a := FireWeaponA(m, opponent);
      var b := FireWeaponB(m, opponent);
      var c := FireSpecialAndWeaponB(m, opponent);
      if keys.hyper && !hyper.isActive && vitals.hyperGauge >= HYPER_ACTIVATION_COST {
        ActivateHyper();
      }
      var l := FireInHyper(m, opponent);
      shots := a + b + c + l;
    }

    /** The weapon-A branch of handle_weapons. */
    method FireWeaponA(m: Math, opponent: Point) returns (shots: seq<ProjectileState>)
      modifies this
      ensures Fired(State(), shots) == WeaponAStep(m, old(State()), opponent)
    {
      shots := [];
      if keys.weaponA && guns.shootCooldown <= 0 {
        var p := CreateProjectile(m, WEAPON_A, opponent);
        shots := [p];
        guns := guns.(shootCooldown := WEAPON_A.cooldown);
      }
    }

    /** The weapon-B branch of handle_weapons: start a burst and fire its first shot. */
    method FireWeaponB(m: Math, opponent: Point) returns (shots: seq<ProjectileState>)
      modifies this
      ensures Fired(State(), shots) == WeaponBStep(m, old(State()), opponent)
    {
      shots := [];
      if keys.weaponB && guns.shootCooldown <= 0 && !guns.burstActive {
        guns := guns.(burstActive := true, burstCount := 0, burstTimer := 0);
        guns := guns.(burstBaseAngle := m.atan2(opponent.y - body.y, opponent.x - body.x));
        var p := FireWeaponBBurstShot(m);
        shots := [p];
        guns := guns.(burstCount := guns.burstCount + 1, burstTimer := BURST_DELAY);
        guns := guns.(shootCooldown := WEAPON_B.cooldown);
      }
    }

    /** The special + weapon-B branch of handle_weapons. */
    method FireSpecialAndWeaponB(m: Math, opponent: Point) returns (shots: seq<ProjectileState>)
      modifies this
      ensures Fired(State(), shots) == SpecialStep(m, old(State()), opponent)
    {
      shots := [];
      if keys.special && keys.weaponB && guns.shootCooldown <= 0 {
        if vitals.hyperGauge >= SPECIAL_SPREAD_COST {
          vitals := vitals.(hyperGauge := vitals.hyperGauge - SPECIAL_SPREAD_COST);
          guns := guns.(burstActive := true, isSpecialSpreadActive := true, burstCount := 0, burstTimer := 0);
          guns := guns.(burstBaseAngle := m.atan2(opponent.y - body.y, opponent.x - body.x));
          shots := FireSpecialSpreadShot(m);
          guns := guns.(burstCount := guns.burstCount + 1, burstTimer := BURST_DELAY);
          guns := guns.(shootCooldown := SPECIAL_B.cooldown);
        } else {
          var p := CreateProjectile(m, WEAPON_B, opponent);
          shots := [p];
          guns := guns.(shootCooldown := WEAPON_B.cooldown);
        }
      }
    }

    /** The hyper-mode shot of handle_weapons: the laser first, weapon-A beams after it. */
    method FireInHyper(m: Math, opponent: Point) returns (shots: seq<ProjectileState>)
      modifies this
      ensures Fired(State(), shots) == HyperFireStep(m, old(State()), opponent)
    {
      shots := [];
      if hyper.isActive && keys.hyper && guns.shootCooldown <= 0 {
        if !hyper.hasFiredLaser {
          var p := CreateProjectile(m, HYPER_LASER, opponent);
          p := p.(radius := 30.0, kind := Beam(200.0), speed := 7.5);
          shots := [p];
          guns := guns.(shootCooldown := HYPER_LASER_COOLDOWN);
          hyper := hyper.(hasFiredLaser := true);
          vitals := vitals.(hyperGauge := vitals.hyperGauge - HYPER_LASER_COST);
        } else {
          var p := CreateProjectile(m, WEAPON_A, opponent);
          shots := [p];
          guns := guns.(shootCooldown := WEAPON_A.cooldown);
        }
      }
    }
  }
}
