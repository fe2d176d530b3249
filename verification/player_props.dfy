/**
 * Properties of the player rules (game/player.py): what each step of
 * Player.update promises on its own, and the frame invariant `Inv` that
 * Player.__init__ establishes and every frame, reset and take_damage keep.
 */
module PlayerProperties {
  import opened Numeric
  import opened Constants
  import opened Projectiles
  import opened ArenaModel
  import opened PlayerRules

  // ---------------------------------------------------------------- the frame invariant

  /** Heat never exceeds its cap, and the one-per-frame decay cannot take it to -1 or below. */
  predicate HeatOk(v: Vitals) {
    -HEAT_DECREASE_RATE < v.heat <= MAX_HEAT
  }

  /** The gauge never exceeds its cap; the border drain, the only unfloored drain, stops it above -2. */
  predicate GaugeOk(v: Vitals) {
    -HYPER_DECREASE_RATE_AT_BORDER < v.hyperGauge <= MAX_HYPER
  }

  /** The shield is up exactly while its counter is positive, and the counter is at most the shield's duration. */
  predicate ShieldOk(sh: ShieldState) {
    0 <= sh.cooldown <= SHIELD_DURATION && (sh.isActive <==> sh.cooldown > 0) && sh.durationCounter == sh.cooldown
  }

  predicate HyperOk(h: HyperState) {
    h.isActive ==> 0 < h.duration <= HYPER_DURATION
  }

  /**
   * The shot counters: the burst count stays within the burst, the special
   * spread is never on, and while a burst runs its timer is armed and the
   * shot cooldown outlasts every shot the burst has left.
   */
  predicate GunsOk(g: Guns) {
    0 <= g.shootCooldown && 0 <= g.burstCount <= BURST_TOTAL && !g.isSpecialSpreadActive &&
    (g.burstActive ==>
       1 <= g.burstCount < BURST_TOTAL && 1 <= g.burstTimer <= BURST_DELAY &&
       g.shootCooldown > g.burstTimer + BURST_DELAY * (BURST_TOTAL - 1 - g.burstCount))
  }

  /** Every dash ring left is still alive and no older than a fresh one. */
  predicate RingsOk(rings: seq<DashRing>) {
    forall i :: 0 <= i < |rings| ==> 0 < rings[i].duration <= DASH_RING_DURATION
  }

  /** What holds of a player between frames. */
  predicate Inv(s: PlayerState) {
    HeatOk(s.vitals) && GaugeOk(s.vitals) && s.vitals.health <= MAX_HEALTH &&
    ShieldOk(s.shield) && HyperOk(s.hyper) && GunsOk(s.guns) &&
    0 <= s.dash.cooldown && RingsOk(s.dash.rings)
  }

  /** The square of a number. */
  function Sq(x: real): real { x * x }

  // ---------------------------------------------------------------- movement

  /** The walking step: one key moves PLAYER_SPEED along its axis; two keys move PLAYER_SPEED / sqrt 2 along each. */
  lemma WalkingStride(m: Math, dash: DashState, k: Intent)
    requires Lawful(m) && !dash.isDashing
    ensures var st := Stride(dash, Direction(m, k));
            var ax := Axis(k.left, k.right);
            var ay := Axis(k.up, k.down);
            (ax == 0 || ay == 0 ==> st == Point(PLAYER_SPEED * ax as real, PLAYER_SPEED * ay as real)) &&
            (ax != 0 && ay != 0 ==>
               Sq(st.x) == Sq(PLAYER_SPEED) / 2.0 && Sq(st.y) == Sq(PLAYER_SPEED) / 2.0 &&
               (st.x > 0.0 <==> ax > 0) && (st.y > 0.0 <==> ay > 0))
  {
    var ax := Axis(k.left, k.right);
    var ay := Axis(k.up, k.down);
    if ax != 0 && ay != 0 {
      assert (ax * ax + ay * ay) as real == 2.0;
      var length := m.sqrt(2.0);
      RootTwo(m);
      DiagonalComponent(ax, length);
      DiagonalComponent(ay, length);
    }
  }

  lemma RootTwo(m: Math)
    requires Lawful(m)
    ensures 0.0 < m.sqrt(2.0) && m.sqrt(2.0) * m.sqrt(2.0) == 2.0
  {
    SqrtPositive(m, 2.0);
  }

  /** One component of a diagonal direction: a unit axis value divided by sqrt 2, times the walking speed. */
  lemma DiagonalComponent(a: int, length: real)
    requires (a == 1 || a == -1) && 0.0 < length && length * length == 2.0
    ensures Sq(a as real / length * PLAYER_SPEED) == Sq(PLAYER_SPEED) / 2.0
    ensures a as real / length * PLAYER_SPEED > 0.0 <==> a > 0
  {
    var q := a as real / length;
    DivMul(a as real, length);
    calc {
      q * q * 2.0;
      q * q * (length * length);
      (q * length) * (q * length);
      a as real * a as real;
      1.0;
    }
    var c := q * PLAYER_SPEED;
    if a > 0 {
      MulPos(q, PLAYER_SPEED);
    } else {
      MulPos(-q, PLAYER_SPEED);
    }
    assert c * c == q * q * 25.0;
  }

  /** The move rule's steps, named as in MoveRule. */
  lemma MoveSteps(m: Math, arena: Arena, s: PlayerState)
    requires Lawful(m)
    ensures var d := Direction(m, s.keys);
            var h := HasInput(s.keys);
            var s1 := DashControl(OverheatStop(s), d, h);
            var s2 := if s1.dash.isDashing then DashSteer(m, s1, d, h) else s1;
            MoveRule(m, arena, s) == Displace(m, arena, s2, d)
  {
  }

  /**
   * After move the player is dashing exactly when the dash key is held, heat
   * is below MAX_HEAT, and either a dash was already running or one could
   * start (cooldown over, a direction held, heat below DASH_HEAT_LIMIT). So
   * releasing the key ends the dash that frame, full heat cuts it off and
   * overheats, and a running dash is not stopped by heat between the start
   * limit and the maximum.
   */
  lemma DashingAfterMove(m: Math, arena: Arena, s: PlayerState)
    requires Lawful(m)
    ensures var r := MoveRule(m, arena, s);
            (r.dash.isDashing <==>
               s.keys.dash && s.vitals.heat < MAX_HEAT &&
               (s.dash.isDashing || (s.dash.cooldown <= 0 && HasInput(s.keys) && s.vitals.heat < DASH_HEAT_LIMIT))) &&
            (s.vitals.heat >= MAX_HEAT ==> r.vitals.isOverheated) &&
            (r.dash.isDashing ==> r.dash.cooldown == DASH_COOLDOWN)
  {
    MoveSteps(m, arena, s);
    var d := Direction(m, s.keys);
    var h := HasInput(s.keys);
    var s0 := OverheatStop(s);
    var s1 := DashControl(s0, d, h);
    assert s1.dash.isDashing ==> s1.vitals.heat < MAX_HEAT;
    assert s.vitals.heat >= MAX_HEAT ==> s1.vitals.isOverheated;
    var s2 := if s1.dash.isDashing then DashSteer(m, s1, d, h) else s1;
    assert s2.dash.isDashing == s1.dash.isDashing && s2.vitals == s1.vitals;
  }

  /**
   * A dash that starts this frame: heat rises by DASH_START_HEAT up to
   * MAX_HEAT unless the player is overheated, exactly one ring is dropped at
   * the starting point along the walking direction, and the cooldown is set.
   */
  lemma DashStart(m: Math, arena: Arena, s: PlayerState)
    requires Lawful(m) && CanStartDash(s, HasInput(s.keys))
    ensures var r := MoveRule(m, arena, s);
            var d := Direction(m, s.keys);
            r.dash.isDashing && r.dash.cooldown == DASH_COOLDOWN &&
            r.vitals.heat == (if s.vitals.isOverheated then s.vitals.heat else Min(MAX_HEAT, s.vitals.heat + DASH_START_HEAT)) &&
            r.dash.rings == s.dash.rings + [NewRing(s.body.x, s.body.y, d.x, d.y)]
  {
    MoveSteps(m, arena, s);
    var d := Direction(m, s.keys);
    var h := HasInput(s.keys);
    assert OverheatStop(s) == s;
    var s1 := DashControl(s, d, h);
    assert s1.dash.ringCounter == 0 && s1.vitals.heat < MAX_HEAT;
    var s2 := DashSteer(m, s1, d, h);
    assert s2.dash.rings == s1.dash.rings && s2.vitals == s1.vitals && s2.dash.isDashing;
  }

  /** The speed heating changes only the heat: never when overheated, never downwards from at most MAX_HEAT, and never past it. */
  lemma HeatFromMotionBounds(m: Math, s: PlayerState)
    ensures var r := HeatFromMotion(m, s);
            r == s.(vitals := r.vitals) && r.vitals == s.vitals.(heat := r.vitals.heat) &&
            (s.vitals.heat <= MAX_HEAT ==> s.vitals.heat <= r.vitals.heat <= MAX_HEAT) &&
            (s.vitals.isOverheated ==> r == s)
  {
    var moved := Dist(m, s.body.x, s.body.y, s.body.prevX, s.body.prevY);
    if moved > PLAYER_SPEED && !s.vitals.isOverheated {
      var factor := (moved - PLAYER_SPEED) / (PLAYER_DASH_SPEED - PLAYER_SPEED);
      assert 0.0 < factor;
    }
  }

  // ---------------------------------------------------------------- heat

  /**
   * Heat decays by HEAT_DECREASE_RATE only when it is positive and the player
   * is not dashing; from at most MAX_HEAT the decay never sets the overheat
   * flag, and it clears the flag exactly when the cooled heat is at most the
   * player's overheat_cooldown.
   */
  lemma DecayHeatSpec(s: PlayerState)
    ensures var r := DecayHeat(s);
            var decays := s.vitals.heat > 0.0 && !s.dash.isDashing;
            r == s.(vitals := r.vitals) &&
            r.vitals == s.vitals.(heat := r.vitals.heat, isOverheated := r.vitals.isOverheated) &&
            r.vitals.heat == (if decays then s.vitals.heat - HEAT_DECREASE_RATE else s.vitals.heat) &&
            (s.vitals.heat <= MAX_HEAT && r.vitals.isOverheated ==> s.vitals.isOverheated) &&
            (s.vitals.heat <= MAX_HEAT ==>
               (s.vitals.isOverheated && !r.vitals.isOverheated <==>
                  s.vitals.isOverheated && decays && r.vitals.heat <= s.vitals.overheatCooldown))
  {
  }

  // ---------------------------------------------------------------- dash rings

  /** The rings kept by the ring loop: exactly those with more than one frame left, each one frame older. */
  lemma {:induction false} AgeRingsSpec(rings: seq<DashRing>)
    ensures |AgeRings(rings)| <= |rings|
    ensures forall r :: r in AgeRings(rings) <==>
              exists i :: 0 <= i < |rings| && rings[i].duration > 1 && r == rings[i].(duration := rings[i].duration - 1)
  {
    if |rings| > 0 {
      var init := rings[..|rings| - 1];
      var last := rings[|rings| - 1];
      AgeRingsSpec(init);
      assert AgeRings(rings) == AgeRings(init) + AgeRing(last);
      forall r
        ensures r in AgeRings(rings) <==>
                exists i :: 0 <= i < |rings| && rings[i].duration > 1 && r == rings[i].(duration := rings[i].duration - 1)
      {
        if r in AgeRings(rings) {
          if r in AgeRings(init) {
            var i :| 0 <= i < |init| && init[i].duration > 1 && r == init[i].(duration := init[i].duration - 1);
            assert rings[i] == init[i];
          } else {
            assert r in AgeRing(last);
            assert rings[|rings| - 1] == last;
          }
        }
        if exists i :: 0 <= i < |rings| && rings[i].duration > 1 && r == rings[i].(duration := rings[i].duration - 1) {
          var i :| 0 <= i < |rings| && rings[i].duration > 1 && r == rings[i].(duration := rings[i].duration - 1);
          if i < |init| {
            assert init[i] == rings[i];
          } else {
            assert r in AgeRing(last);
          }
        }
      }
    }
  }

  /** The ring loop keeps every ring alive and no older than a fresh one. */
  lemma AgeRingsOk(rings: seq<DashRing>)
    requires RingsOk(rings)
    ensures RingsOk(AgeRings(rings))
  {
    AgeRingsSpec(rings);
    var aged := AgeRings(rings);
    forall j | 0 <= j < |aged|
      ensures 0 < aged[j].duration <= DASH_RING_DURATION
    {
      assert aged[j] in aged;
    }
  }

  // ---------------------------------------------------------------- shield

  /**
   * The shield part of a frame: it activates only when the key is held, the
   * previous shield is over and the gauge holds SHIELD_COST, and then costs
   * exactly SHIELD_COST and starts the full duration (already counted down
   * once); a raised shield counts down by one and drops when it reaches zero,
   * and cannot be re-triggered before that.
   */
  lemma ShieldStepSpec(s: PlayerState)
    requires ShieldOk(s.shield)
    ensures var r := ShieldStep(s);
            var activates := s.keys.shield && !s.shield.isActive && s.vitals.hyperGauge >= SHIELD_COST;
            ShieldOk(r.shield) && r == s.(shield := r.shield, vitals := r.vitals) &&
            (activates ==>
               r.shield == ShieldState(true, SHIELD_DURATION - 1, SHIELD_DURATION - 1) &&
               r.vitals == s.vitals.(hyperGauge := s.vitals.hyperGauge - SHIELD_COST)) &&
            (!activates ==> r.vitals == s.vitals) &&
            (s.shield.isActive ==>
               r.shield.cooldown == s.shield.cooldown - 1 && (r.shield.isActive <==> s.shield.cooldown > 1))
  {
  }

  /** While the shield is up, handle_weapons fires nothing and changes nothing. */
  lemma ShieldedHoldsFire(m: Math, s: PlayerState, opponent: Point)
    requires s.shield.isActive
    ensures HandleWeapons(m, s, opponent) == Fired(s, [])
  {
  }

  /** take_damage: nothing while shielded; otherwise health drops by the amount and the gauge gains a fifth of it, capped. */
  lemma TakeDamageSpec(s: PlayerState, amount: real)
    requires 0.0 <= amount
    ensures var r := TakeDamage(s, amount);
            (s.shield.isActive ==> r == s) &&
            (!s.shield.isActive ==>
               r == s.(vitals := s.vitals.(health := s.vitals.health - amount, hyperGauge := r.vitals.hyperGauge)) &&
               r.vitals.hyperGauge == Min(MAX_HYPER, s.vitals.hyperGauge + amount / 5.0) &&
               (s.vitals.hyperGauge <= MAX_HYPER ==> s.vitals.hyperGauge <= r.vitals.hyperGauge <= MAX_HYPER)) &&
            r.vitals.health <= s.vitals.health
  {
  }

  // ---------------------------------------------------------------- hyper mode

  /**
   * The hyper key outside hyper mode: it activates exactly when the gauge
   * holds HYPER_ACTIVATION_COST, deducts exactly that, and starts
   * HYPER_DURATION frames with the laser not yet fired.
   */
  lemma HyperKeySpec(s: PlayerState)
    ensures var r := HyperKeyStep(s);
            var activates := s.keys.hyper && !s.hyper.isActive && s.vitals.hyperGauge >= HYPER_ACTIVATION_COST;
            (activates ==>
               r == s.(hyper := HyperState(true, HYPER_DURATION, false),
                       vitals := s.vitals.(hyperGauge := s.vitals.hyperGauge - HYPER_ACTIVATION_COST))) &&
            (!activates ==> r == s)
  {
  }

  /**
   * A hyper frame burns one frame and one gauge point; the mode ends exactly
   * when either runs out, and then the gauge is floored at zero.
   */
  lemma HyperTickSpec(s: PlayerState)
    requires s.hyper.isActive
    ensures var r := HyperTick(s);
            var gauge := s.vitals.hyperGauge - HYPER_CONSUMPTION_RATE;
            r.hyper.duration == s.hyper.duration - 1 &&
            (r.hyper.isActive <==> gauge > 0.0 && s.hyper.duration > 1) &&
            r.vitals.hyperGauge == (if r.hyper.isActive then gauge else Max(0.0, gauge)) &&
            0.0 <= r.vitals.hyperGauge
  {
  }

  /**
   * The first hyper-key shot of a hyper phase: one laser beam (radius 30,
   * length 200, speed 7.5) of double HYPER_LASER damage at the opponent, a
   * 40-frame cooldown, and 10 gauge on top of the usual shot heat and gain.
   */
  lemma HyperLaserShot(m: Math, s: PlayerState, opponent: Point)
    requires s.hyper.isActive && s.keys.hyper && s.guns.shootCooldown <= 0 && !s.hyper.hasFiredLaser
    ensures var f := HyperFireStep(m, s, opponent);
            |f.shots| == 1 &&
            f.shots[0].damage == 2.0 * HYPER_LASER.damage && f.shots[0].radius == 30.0 &&
            f.shots[0].speed == 7.5 && f.shots[0].kind == Beam(200.0) &&
            f.shots[0].angle == AimAngle(m, s, opponent) && f.shots[0].owner == Owner(s) &&
            f.state.guns.shootCooldown == HYPER_LASER_COOLDOWN && f.state.hyper.hasFiredLaser &&
            f.state.vitals.hyperGauge == Min(MAX_HYPER, s.vitals.hyperGauge + SHOT_HYPER_GAIN) - HYPER_LASER_COST &&
            f.state.vitals.heat == Min(MAX_HEAT, s.vitals.heat + SHOT_HEAT)
  {
  }

  // ---------------------------------------------------------------- weapon-B burst

  /** Every shot heats the shooter by SHOT_HEAT and fills the gauge by SHOT_HYPER_GAIN, both capped. */
  lemma AfterShotBounds(s: PlayerState)
    requires HeatOk(s.vitals) && GaugeOk(s.vitals)
    ensures var r := AfterShot(s);
            HeatOk(r.vitals) && GaugeOk(r.vitals) &&
            s.vitals.heat <= r.vitals.heat && s.vitals.hyperGauge <= r.vitals.hyperGauge &&
            r == s.(vitals := r.vitals) &&
            r.vitals == s.vitals.(heat := r.vitals.heat, hyperGauge := r.vitals.hyperGauge)
  {
  }

  /**
   * A burst frame whose timer runs out fires burst shot number k = burstCount:
   * a weapon-B shot at base + (k - 2) * pi / 8 from the fixed base angle, with
   * half the (hyper-doubled) damage, then counts it; the burst ends exactly
   * when the count reaches BURST_TOTAL.
   */
  lemma BurstShot(m: Math, s: PlayerState)
    requires s.guns.burstActive && !s.guns.isSpecialSpreadActive
    requires s.guns.burstTimer <= 1 && s.guns.burstCount < BURST_TOTAL
    ensures var f := BurstTick(m, s);
            var k := s.guns.burstCount;
            |f.shots| == 1 &&
            f.shots[0].angle == s.guns.burstBaseAngle + (k - 2) as real * (PI / 8.0) &&
            f.shots[0].damage == WEAPON_B.damage * (if s.hyper.isActive then 2.0 else 1.0) / 2.0 &&
            f.shots[0].kind == Ballistic &&
            f.state.guns.burstBaseAngle == s.guns.burstBaseAngle &&
            f.state.guns.burstCount == k + 1 &&
            (f.state.guns.burstActive <==> k + 1 < BURST_TOTAL) &&
            f.state.vitals == AfterShot(s).vitals
  {
  }

  /** A burst frame whose timer has not run out only counts the timer down. */
  lemma BurstWait(m: Math, s: PlayerState)
    requires s.guns.burstActive && s.guns.burstTimer > 1
    ensures BurstTick(m, s) == Fired(s.(guns := s.guns.(burstTimer := s.guns.burstTimer - 1)), [])
  {
  }

  // ---------------------------------------------------------------- the special spread is unreachable

  /**
   * The special-spread branch of handle_weapons never fires while a running
   * burst holds the shot cooldown: weapon A or weapon B has either already
   * fired this frame (and set the cooldown), or a burst is running (and
   * holds it), or weapon B is not held.
   */
  lemma SpecialStepIsDead(m: Math, s: PlayerState, opponent: Point)
    requires s.guns.burstActive ==> s.guns.shootCooldown > 0
    ensures var a := WeaponAStep(m, s, opponent);
            var b := WeaponBStep(m, a.state, opponent);
            SpecialStep(m, b.state, opponent) == Fired(b.state, [])
  {
    var a := WeaponAStep(m, s, opponent);
    assert a.state.guns.burstActive == s.guns.burstActive;
    assert a.state.guns.shootCooldown > 0 || a.state.guns.shootCooldown == s.guns.shootCooldown;
    var b := WeaponBStep(m, a.state, opponent);
    assert b.state.guns.shootCooldown > 0 || !a.state.keys.weaponB;
  }

  // ---------------------------------------------------------------- the invariant is kept

  /** Player.__init__ establishes the invariant. */
  lemma InitialInv(x: real, y: real, isPlayer1: bool)
    ensures Inv(Initial(x, y, isPlayer1))
  {
  }

  /** Player.reset keeps the invariant. */
  lemma ResetInv(s: PlayerState)
    requires Inv(s)
    ensures Inv(Reset(s))
  {
  }

  /** take_damage with a non-negative amount keeps the invariant. */
  lemma TakeDamageInv(s: PlayerState, amount: real)
    requires Inv(s) && 0.0 <= amount
    ensures Inv(TakeDamage(s, amount))
  {
  }

  /** move keeps the invariant: it changes heat only upwards to the cap, sets the dash cooldown, and adds fresh rings. */
  lemma MoveInv(m: Math, arena: Arena, s: PlayerState)
    requires Lawful(m) && Inv(s)
    ensures Inv(MoveRule(m, arena, s))
  {
    MoveSteps(m, arena, s);
    var d := Direction(m, s.keys);
    var h := HasInput(s.keys);
    DashControlInv(OverheatStop(s), d, h);
    var s1 := DashControl(OverheatStop(s), d, h);
    if s1.dash.isDashing {
      DashSteerInv(m, s1, d, h);
    }
  }

  /** Starting or releasing the dash keeps the invariant. */
  lemma DashControlInv(s: PlayerState, d: Point, hasInput: bool)
    requires Inv(s)
    ensures Inv(DashControl(s, d, hasInput))
  {
    var r := DashControl(s, d, hasInput);
    assert RingsOk(r.dash.rings);
  }

  /** Steering a dash keeps the invariant. */
  lemma DashSteerInv(m: Math, s: PlayerState, d: Point, hasInput: bool)
    requires Inv(s)
    ensures Inv(DashSteer(m, s, d, hasInput))
  {
    var r := DashSteer(m, s, d, hasInput);
    assert RingsOk(r.dash.rings);
  }

  /** The cooldown countdown and the burst frame together keep the shot counters' invariant. */
  lemma BurstFrameInv(m: Math, s: PlayerState)
    requires Inv(s)
    ensures Inv(BurstTick(m, TickCooldowns(s)).state)
  {
    var t := TickCooldowns(s);
    if t.guns.burstActive {
      var u := t.(guns := t.guns.(burstTimer := t.guns.burstTimer - 1));
      if u.guns.burstTimer <= 0 {
        AfterShotBounds(u);
      }
    }
  }

  /** The steps after the burst keep the invariant. */
  lemma AfterBurstInv(m: Math, arena: Arena, s: PlayerState)
    requires Inv(s)
    ensures Inv(ShieldStep(BorderDrain(m, arena, HyperTick(DecayHeat(s)))))
  {
    var s1 := HyperTick(DecayHeat(s));
    assert Inv(s1);
    var s2 := BorderDrain(m, arena, s1);
    assert Inv(s2);
    ShieldStepSpec(s2);
  }

  /** Weapon A keeps the invariant: it fires only with the cooldown over, when no burst is running. */
  lemma WeaponAInv(m: Math, s: PlayerState, opponent: Point)
    requires Inv(s)
    ensures Inv(WeaponAStep(m, s, opponent).state)
  {
    if s.keys.weaponA && s.guns.shootCooldown <= 0 {
      AfterShotBounds(s);
    }
  }

  /** Weapon B keeps the invariant: a new burst has fired one shot, has the timer armed and holds WEAPON_B's cooldown. */
  lemma WeaponBInv(m: Math, s: PlayerState, opponent: Point)
    requires Inv(s)
    ensures Inv(WeaponBStep(m, s, opponent).state)
  {
    if s.keys.weaponB && s.guns.shootCooldown <= 0 && !s.guns.burstActive {
      var t := StartBurst(m, s, opponent);
      AfterShotBounds(t);
      var f := FireBurstShot(m, t);
      assert f.state.guns == t.guns;
    }
  }

  /** The hyper key keeps the invariant, in and out of hyper mode. */
  lemma HyperStepsInv(m: Math, s: PlayerState, opponent: Point)
    requires Inv(s)
    ensures Inv(HyperFireStep(m, HyperKeyStep(s), opponent).state)
  {
    var k := HyperKeyStep(s);
    assert Inv(k);
    if k.hyper.isActive && k.keys.hyper && k.guns.shootCooldown <= 0 {
      AfterShotBounds(k);
    }
  }

  /** handle_weapons keeps the invariant, and in particular never starts the special spread. */
  lemma HandleWeaponsInv(m: Math, s: PlayerState, opponent: Point)
    requires Inv(s)
    ensures Inv(HandleWeapons(m, s, opponent).state)
  {
    if !s.shield.isActive {
      var a := WeaponAStep(m, s, opponent);
      WeaponAInv(m, s, opponent);
      var b := WeaponBStep(m, a.state, opponent);
      WeaponBInv(m, a.state, opponent);
      SpecialStepIsDead(m, s, opponent);
      HyperStepsInv(m, b.state, opponent);
    }
  }

  /** PreWeapons keeps the invariant. */
  lemma PreWeaponsInv(m: Math, arena: Arena, s: PlayerState, opponent: Point, keys: Intent)
    requires Lawful(m) && Inv(s)
    ensures Inv(PreWeapons(m, arena, s, opponent, keys).state)
  {
    var s1 := Face(m, s.(keys := keys), opponent);
    assert Inv(s1);
    MoveInv(m, arena, s1);
    var mv := MoveRule(m, arena, s1);
    HeatFromMotionBounds(m, mv);
    var s2 := HeatFromMotion(m, mv);
    assert Inv(s2);
    AgeRingsOk(s2.dash.rings);
    var s3 := s2.(dash := s2.dash.(rings := AgeRings(s2.dash.rings)));
    assert Inv(s3);
    BurstFrameInv(m, s3);
    AfterBurstInv(m, arena, BurstTick(m, TickCooldowns(s3)).state);
  }

  /** A whole frame of Player.update keeps the invariant. */
  lemma TickPreservesInv(m: Math, arena: Arena, s: PlayerState, opponent: Point, keys: Intent)
    requires Lawful(m) && Inv(s)
    ensures Inv(Tick(m, arena, s, opponent, keys).state)
  {
    PreWeaponsInv(m, arena, s, opponent, keys);
    HandleWeaponsInv(m, PreWeapons(m, arena, s, opponent, keys).state, opponent);
  }
}
