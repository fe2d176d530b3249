/**
 * The player's per-frame rules (game/player.py), stated on values.
 *
 * `PlayerState` holds every field of a Player that the combat rules read or
 * write; each rule below is one step of Player.update (or one of the methods
 * it calls) as a function from the old state to the new one. A step that
 * fires returns the projectiles it creates alongside the new state
 * (`Fired`); the game adds them to its list. The `Player` class
 * (player.dfy) performs the same steps on its fields and is proved to follow
 * these functions; the properties of the rules are in player_props.dfy.
 *
 * A player's projectiles carry its index as owner: 0 for player 1, 1 for
 * player 2.
 */
module PlayerRules {
  import opened Numeric
  import opened Constants
  import opened Projectiles
  import opened ArenaModel

  /** The key_states dictionary: which actions are held this frame. */
  datatype Intent = Intent(
    up: bool, down: bool, left: bool, right: bool,
    weaponA: bool, weaponB: bool, shield: bool, dash: bool,
    hyper: bool, special: bool)

  const NO_KEYS: Intent := Intent(false, false, false, false, false, false, false, false, false, false)

  /** A dash ring: where it was dropped, the frames it has left, and the dash heading it is drawn along. */
  datatype DashRing = DashRing(x: real, y: real, duration: int, dirX: real, dirY: real)

  /** DashRing.__init__: a ring without a heading is drawn as if heading along +x. */
  function NewRing(x: real, y: real, dirX: real, dirY: real): DashRing {
    if dirX == 0.0 && dirY == 0.0 then DashRing(x, y, DASH_RING_DURATION, 1.0, dirY)
    else DashRing(x, y, DASH_RING_DURATION, dirX, dirY)
  }

  datatype WeaponType = BeamType | BallisticType | MeleeType

  /** A weapon: the projectile type it fires, its damage and its cooldown in frames (the display name is left out). */
  datatype Weapon = Weapon(kind: WeaponType, damage: real, cooldown: int)

  const WEAPON_A: Weapon := Weapon(BeamType, 20.0, WEAPON_A_COOLDOWN)
  const WEAPON_B: Weapon := Weapon(BallisticType, 40.0, WEAPON_B_COOLDOWN)
  const SPECIAL_B: Weapon := Weapon(BeamType, 10.0, SPECIAL_COOLDOWN)
  /** The weapon handle_weapons builds for the first shot of a hyper phase. */
  const HYPER_LASER: Weapon := Weapon(BeamType, 50.0, 15)

  /** Position, the position at the start of the frame, and the heading towards the opponent. */
  datatype Body = Body(x: real, y: real, prevX: real, prevY: real, facingAngle: real)

  /** The dash: whether it is on, its cooldown, its heading, the ring counter and the rings left behind. */
  datatype DashState = DashState(
    isDashing: bool, cooldown: int, dirX: real, dirY: real, ringCounter: int, rings: seq<DashRing>)

  /** Health, heat, the hyper gauge and the overheat flag with its release level. */
  datatype Vitals = Vitals(
    health: real, heat: real, hyperGauge: real, isOverheated: bool, overheatCooldown: real)

  datatype HyperState = HyperState(isActive: bool, duration: int, hasFiredLaser: bool)

  /** The shield: on, the frames it has left, and the copy of that count the source keeps. */
  datatype ShieldState = ShieldState(isActive: bool, cooldown: int, durationCounter: int)

  /** The shot cooldown and the weapon-B burst (or special spread) in progress. */
  datatype Guns = Guns(
    shootCooldown: int, burstActive: bool, burstCount: int, burstTimer: int,
    burstBaseAngle: real, isSpecialSpreadActive: bool)

  /**
   * Every attribute of a Player that the combat rules read or write, grouped
   * by concern; the field names are the source's.
   */
  datatype PlayerState = PlayerState(
    initialX: real, initialY: real, isPlayer1: bool,
    body: Body, dash: DashState, vitals: Vitals, hyper: HyperState,
    shield: ShieldState, guns: Guns, keys: Intent)

  /** The new state of the shooter together with the projectiles fired, in firing order. */
  datatype Fired = Fired(state: PlayerState, shots: seq<ProjectileState>)

  /** Player.__init__. */
  function Initial(x: real, y: real, isPlayer1: bool): PlayerState {
    PlayerState(
      x, y, isPlayer1,
      Body(x, y, x, y, 0.0),
      DashState(false, 0, 0.0, 0.0, 0, []),
      Vitals(MAX_HEALTH, 0.0, 0.0, false, 0.0),
      HyperState(false, 0, false),
      ShieldState(false, 0, 0),
      Guns(0, false, 0, 0, 0.0, false),
      NO_KEYS)
  }

  /** Player.reset: back to the starting point with a half-full gauge; the special-spread flag is not cleared. */
  function Reset(s: PlayerState): PlayerState {
    s.(body := s.body.(x := s.initialX, y := s.initialY),
       dash := DashState(false, 0, 0.0, 0.0, 0, []),
       vitals := Vitals(MAX_HEALTH, 0.0, MAX_HYPER / 2.0, false, OVERHEAT_COOLDOWN),
       hyper := s.hyper.(isActive := false, duration := 0),
       shield := ShieldState(false, 0, 0),
       guns := s.guns.(shootCooldown := 0, burstActive := false, burstCount := 0, burstTimer := 0),
       keys := NO_KEYS)
  }

  /** The owner index the player's projectiles carry. */
  function Owner(s: PlayerState): int {
    if s.isPlayer1 then 0 else 1
  }

  // ---------------------------------------------------------------- movement

  /** One axis of the key input: -1, 0 or +1. */
  function Axis(negative: bool, positive: bool): int {
    (if negative then -1 else 0) + (if positive then 1 else 0)
  }

  function HasInput(k: Intent): bool {
    Axis(k.left, k.right) != 0 || Axis(k.up, k.down) != 0
  }

  /** The walking direction: the key axes, divided by their length when both are pressed. */
  function Direction(m: Math, k: Intent): Point
    requires Lawful(m)
  {
    var dx := Axis(k.left, k.right);
    var dy := Axis(k.up, k.down);
    if dx != 0 && dy != 0 then
      var length := m.sqrt((dx * dx + dy * dy) as real);
      assert length * length == 2.0;
      Point(dx as real / length, dy as real / length)
    else
      Point(dx as real, dy as real)
  }

  /** At full heat the dash is cut off and the player overheats. */
  function OverheatStop(s: PlayerState): PlayerState {
    if s.vitals.heat >= MAX_HEAT then
      s.(dash := s.dash.(isDashing := false), vitals := s.vitals.(isOverheated := true))
    else
      s
  }

  /** The conditions under which move starts a dash. */
  predicate CanStartDash(s: PlayerState, hasInput: bool) {
    s.keys.dash && s.dash.cooldown <= 0 && !s.dash.isDashing && hasInput && s.vitals.heat < DASH_HEAT_LIMIT
  }

  /** Starting a dash (heading d, heat +20 unless overheated, a ring dropped), or ending it when the key is up. */
  function DashControl(s: PlayerState, d: Point, hasInput: bool): PlayerState {
    if CanStartDash(s, hasInput) then
      s.(dash := s.dash.(isDashing := true, dirX := d.x, dirY := d.y,
                         rings := s.dash.rings + [NewRing(s.body.x, s.body.y, d.x, d.y)], ringCounter := 0),
         vitals := if !s.vitals.isOverheated then s.vitals.(heat := Min(MAX_HEAT, s.vitals.heat + DASH_START_HEAT))
                   else s.vitals)
    else if !s.keys.dash then
      s.(dash := s.dash.(isDashing := false))
    else
      s
  }

  /** The dash heading turned 15% of the way towards d, renormalised when it is not zero. */
  function TurnedHeading(m: Math, dash: DashState, d: Point): Point {
    var nx := dash.dirX * (1.0 - DASH_TURN_SPEED) + d.x * DASH_TURN_SPEED;
    var ny := dash.dirY * (1.0 - DASH_TURN_SPEED) + d.y * DASH_TURN_SPEED;
    var length := m.sqrt(nx * nx + ny * ny);
    if length > 0.0 then Point(nx / length, ny / length) else Point(nx, ny)
  }

  /** While dashing with input: steer the heading and drop a ring at (x, y) every fourth frame. */
  function Steer(m: Math, dash: DashState, x: real, y: real, d: Point): DashState {
    var h := TurnedHeading(m, dash, d);
    var counter := dash.ringCounter + 1;
    if counter >= DASH_RING_INTERVAL then
      dash.(dirX := h.x, dirY := h.y, rings := dash.rings + [NewRing(x, y, h.x, h.y)], ringCounter := 0)
    else
      dash.(dirX := h.x, dirY := h.y, ringCounter := counter)
  }

  /** The dashing branch of move: the overheat check again, then steering when there is input. */
  function DashSteer(m: Math, s: PlayerState, d: Point, hasInput: bool): PlayerState {
    var s1 := OverheatStop(s);
    if hasInput then s1.(dash := Steer(m, s1.dash, s1.body.x, s1.body.y, d)) else s1
  }

  /** The displacement of one frame: dash speed along the dash heading, or walking speed along d. */
  function Stride(dash: DashState, d: Point): Point {
    if dash.isDashing then Point(dash.dirX * PLAYER_DASH_SPEED, dash.dirY * PLAYER_DASH_SPEED)
    else Point(d.x * PLAYER_SPEED, d.y * PLAYER_SPEED)
  }

  /** Move by the stride, clamp onto the arena, and restart the dash cooldown while dashing. */
  function Displace(m: Math, arena: Arena, s: PlayerState, d: Point): PlayerState {
    var step := Stride(s.dash, d);
    var p := arena.ConstrainPosition(m, s.body.x + step.x, s.body.y + step.y);
    s.(body := s.body.(x := p.x, y := p.y),
       dash := if s.dash.isDashing then s.dash.(cooldown := DASH_COOLDOWN) else s.dash)
  }

  /** Player.move. */
  function MoveRule(m: Math, arena: Arena, s: PlayerState): PlayerState
    requires Lawful(m)
  {
    var d := Direction(m, s.keys);
    var hasInput := HasInput(s.keys);
    var s1 := DashControl(OverheatStop(s), d, hasInput);
    var s2 := if s1.dash.isDashing then DashSteer(m, s1, d, hasInput) else s1;
    Displace(m, arena, s2, d)
  }

  /** The start of update: face the opponent and remember where the frame began. */
  function Face(m: Math, s: PlayerState, opponent: Point): PlayerState {
    s.(body := s.body.(facingAngle := m.atan2(opponent.y - s.body.y, opponent.x - s.body.x),
                       prevX := s.body.x, prevY := s.body.y))
  }

  /** Moving further than walking speed in one frame heats the player, unless overheated. */
  function HeatFromMotion(m: Math, s: PlayerState): PlayerState {
    var moved := Dist(m, s.body.x, s.body.y, s.body.prevX, s.body.prevY);
    if moved > PLAYER_SPEED && !s.vitals.isOverheated then
      var factor := (moved - PLAYER_SPEED) / (PLAYER_DASH_SPEED - PLAYER_SPEED);
      s.(vitals := s.vitals.(heat := Min(MAX_HEAT, s.vitals.heat + factor * 4.0)))
    else
      s
  }

  /** A ring one frame older, or nothing once its duration has run out. */
  function AgeRing(r: DashRing): seq<DashRing> {
    var aged := r.(duration := r.duration - 1);
    if aged.duration <= 0 then [] else [aged]
  }

  /** The ring loop of update: every ring ages by one frame and the dead ones are dropped, in order. */
  function AgeRings(rings: seq<DashRing>): seq<DashRing> {
    if |rings| == 0 then []
    else AgeRings(rings[..|rings| - 1]) + AgeRing(rings[|rings| - 1])
  }

  /** The two frame counters that count down to zero. */
  function TickCooldowns(s: PlayerState): PlayerState {
    s.(dash := if s.dash.cooldown > 0 then s.dash.(cooldown := s.dash.cooldown - 1) else s.dash,
       guns := if s.guns.shootCooldown > 0 then s.guns.(shootCooldown := s.guns.shootCooldown - 1) else s.guns)
  }

  // ---------------------------------------------------------------- firing

  function AimAngle(m: Math, s: PlayerState, opponent: Point): real {
    m.atan2(opponent.y - s.body.y, opponent.x - s.body.x)
  }

  /** The projectile create_projectile_with_angle builds: from the player's position, double damage in hyper mode. */
  function NewProjectile(m: Math, s: PlayerState, w: Weapon, angle: real): ProjectileState {
    var damage := w.damage * (if s.hyper.isActive then 2.0 else 1.0);
    match w.kind
    case BeamType => SpawnBeam(s.body.x, s.body.y, angle, damage, Owner(s))
    case BallisticType => SpawnBallistic(s.body.x, s.body.y, angle, damage, Owner(s))
    case MeleeType => SpawnMelee(m, s.body.x, s.body.y, angle, damage, Owner(s))
  }

  /** What every shot costs and gives the shooter: heat +10 and gauge +15, both capped. */
  function AfterShot(s: PlayerState): PlayerState {
    s.(vitals := s.vitals.(heat := Min(MAX_HEAT, s.vitals.heat + SHOT_HEAT),
                           hyperGauge := Min(MAX_HYPER, s.vitals.hyperGauge + SHOT_HYPER_GAIN)))
  }

  /** create_projectile_with_angle. */
  function CreateProjectileWithAngle(m: Math, s: PlayerState, w: Weapon, angle: real): Fired {
    Fired(AfterShot(s), [NewProjectile(m, s, w, angle)])
  }

  /** create_projectile: aimed at the opponent. */
  function CreateProjectile(m: Math, s: PlayerState, w: Weapon, opponent: Point): Fired {
    CreateProjectileWithAngle(m, s, w, AimAngle(m, s, opponent))
  }

  /** The heading of the burst shot with index k: the base angle fanned by (k - 2) times pi/8. */
  function BurstAngle(g: Guns, k: int): real {
    g.burstBaseAngle + (k - 2) as real * (PI / 8.0)
  }

  /** A weapon-B burst projectile: half speed, half damage, four times the lifetime. */
  function BurstProjectile(p: ProjectileState): ProjectileState {
    p.(speed := p.speed / 2.0, damage := p.damage / 2.0, lifetime := p.lifetime * 4)
  }

  /** A special-spread projectile: half speed and four times the lifetime, full damage. */
  function SpreadProjectile(p: ProjectileState): ProjectileState {
    p.(speed := p.speed / 2.0, lifetime := p.lifetime * 4)
  }

  /** _fire_weapon_b_burst_shot. */
  function FireBurstShot(m: Math, s: PlayerState): Fired {
    var p := NewProjectile(m, s, WEAPON_B, BurstAngle(s.guns, s.guns.burstCount));
    Fired(AfterShot(s), [BurstProjectile(p)])
  }

  /** _fire_special_spread_shot: two beams, the second pi/16 further round. */
  function FireSpreadShot(m: Math, s: PlayerState): Fired {
    var a1 := BurstAngle(s.guns, s.guns.burstCount);
    var a2 := s.guns.burstBaseAngle + ((s.guns.burstCount - 2) as real * (PI / 8.0) + PI / 16.0);
    var p1 := NewProjectile(m, s, SPECIAL_B, a1);
    var s1 := AfterShot(s);
    var p2 := NewProjectile(m, s1, SPECIAL_B, a2);
    Fired(AfterShot(s1), [SpreadProjectile(p1), SpreadProjectile(p2)])
  }

  /** After a burst shot: count it, and either rearm the timer or end the burst (and the special mode) after the tenth. */
  function CountBurstShot(g: Guns): Guns {
    var c := g.burstCount + 1;
    if c < BURST_TOTAL then g.(burstCount := c, burstTimer := BURST_DELAY)
    else g.(burstCount := c, burstActive := false, isSpecialSpreadActive := false)
  }

  /** The burst part of update: count the timer down and fire the next shot when it runs out. */
  function BurstTick(m: Math, s: PlayerState): Fired {
    if !s.guns.burstActive then Fired(s, [])
    else
      var t := s.(guns := s.guns.(burstTimer := s.guns.burstTimer - 1));
      if t.guns.burstTimer <= 0 && t.guns.burstCount < BURST_TOTAL then
        var f := if t.guns.isSpecialSpreadActive then FireSpreadShot(m, t) else FireBurstShot(m, t);
        Fired(f.state.(guns := CountBurstShot(f.state.guns)), f.shots)
      else
        Fired(t, [])
  }

  // ---------------------------------------------------------------- heat, hyper, shield

  /** Heat cools by one per frame while positive and not dashing; the overheat flag is updated with it. */
  function DecayHeat(s: PlayerState): PlayerState {
    if s.vitals.heat > 0.0 && !s.dash.isDashing then
      var h := s.vitals.heat - HEAT_DECREASE_RATE;
      var v := s.vitals.(heat := h);
      if h >= MAX_HEAT then s.(vitals := v.(isOverheated := true))
      else if v.isOverheated && h <= v.overheatCooldown then s.(vitals := v.(isOverheated := false))
      else s.(vitals := v)
    else
      s
  }

  /** Hyper mode burns one frame and one gauge point; it ends when either runs out, and the gauge is floored at 0 then. */
  function HyperTick(s: PlayerState): PlayerState {
    if s.hyper.isActive then
      var duration := s.hyper.duration - 1;
      var gauge := s.vitals.hyperGauge - HYPER_CONSUMPTION_RATE;
      if gauge <= 0.0 || duration <= 0 then
        s.(hyper := s.hyper.(duration := duration, isActive := false),
           vitals := s.vitals.(hyperGauge := Max(0.0, gauge)))
      else
        s.(hyper := s.hyper.(duration := duration), vitals := s.vitals.(hyperGauge := gauge))
    else
      s
  }

  /** Dashing in the arena's warning band drains the gauge by 2 while it is positive. */
  function BorderDrain(m: Math, arena: Arena, s: PlayerState): PlayerState {
    if arena.IsNearBorder(m, s.body.x, s.body.y) && s.dash.isDashing && s.vitals.hyperGauge > 0.0 then
      s.(vitals := s.vitals.(hyperGauge := s.vitals.hyperGauge - HYPER_DECREASE_RATE_AT_BORDER))
    else
      s
  }

  /** The shield key starts a 50-frame shield for 100 gauge once the previous shield is over. */
  function ShieldActivate(s: PlayerState): PlayerState {
    if s.keys.shield && s.shield.cooldown <= 0 && s.vitals.hyperGauge >= SHIELD_COST then
      s.(shield := ShieldState(true, SHIELD_DURATION, SHIELD_DURATION),
         vitals := s.vitals.(hyperGauge := s.vitals.hyperGauge - SHIELD_COST))
    else
      s
  }

  /** The shield counts down one frame and switches off when its counter reaches zero. */
  function ShieldTick(sh: ShieldState): ShieldState {
    if sh.cooldown > 0 then
      var c := sh.cooldown - 1;
      if c <= 0 then ShieldState(false, c, 0) else sh.(cooldown := c, durationCounter := c)
    else
      sh
  }

  /** The shield part of update: activation, then the countdown. */
  function ShieldStep(s: PlayerState): PlayerState {
    var a := ShieldActivate(s);
    a.(shield := ShieldTick(a.shield))
  }

  /** activate_hyper: for 50 gauge, 180 frames of hyper mode with the laser ready. */
  function ActivateHyper(s: PlayerState): PlayerState {
    if s.vitals.hyperGauge >= HYPER_ACTIVATION_COST then
      s.(hyper := HyperState(true, HYPER_DURATION, false),
         vitals := s.vitals.(hyperGauge := s.vitals.hyperGauge - HYPER_ACTIVATION_COST))
    else
      s
  }

  /** The hyper laser: a beam 30 wide and 200 long at 7.5 per frame. */
  function LaserProjectile(p: ProjectileState): ProjectileState {
    p.(radius := 30.0, kind := Beam(200.0), speed := 7.5)
  }

  /** The state with a new shot cooldown. */
  function Rearm(s: PlayerState, cooldown: int): PlayerState {
    s.(guns := s.guns.(shootCooldown := cooldown))
  }

  /** Weapon A: one beam at the opponent. */
  function WeaponAStep(m: Math, s: PlayerState, opponent: Point): Fired {
    if s.keys.weaponA && s.guns.shootCooldown <= 0 then
      var f := CreateProjectile(m, s, WEAPON_A, opponent);
      Fired(Rearm(f.state, WEAPON_A.cooldown), f.shots)
    else
      Fired(s, [])
  }

  /** The start of a burst: active, count and timer at zero, aimed at the opponent. */
  function StartBurst(m: Math, s: PlayerState, opponent: Point): PlayerState {
    s.(guns := s.guns.(burstActive := true, burstCount := 0, burstTimer := 0,
                       burstBaseAngle := AimAngle(m, s, opponent)))
  }

  /** After the first shot of a burst: count it, arm the timer and set the shot cooldown. */
  function FirstShotFired(s: PlayerState, cooldown: int): PlayerState {
    s.(guns := s.guns.(burstCount := s.guns.burstCount + 1, burstTimer := BURST_DELAY, shootCooldown := cooldown))
  }

  /** Weapon B: start a burst aimed at the opponent and fire its first shot. */
  function WeaponBStep(m: Math, s: PlayerState, opponent: Point): Fired {
    if s.keys.weaponB && s.guns.shootCooldown <= 0 && !s.guns.burstActive then
      var f := FireBurstShot(m, StartBurst(m, s, opponent));
      Fired(FirstShotFired(f.state, WEAPON_B.cooldown), f.shots)
    else
      Fired(s, [])
  }

  /** Special + weapon B: for 100 gauge a special-spread burst; without the gauge one plain weapon-B shot. */
  function SpecialStep(m: Math, s: PlayerState, opponent: Point): Fired {
    if s.keys.special && s.keys.weaponB && s.guns.shootCooldown <= 0 then
      if s.vitals.hyperGauge >= SPECIAL_SPREAD_COST then
        var paid := s.(vitals := s.vitals.(hyperGauge := s.vitals.hyperGauge - SPECIAL_SPREAD_COST),
                       guns := s.guns.(isSpecialSpreadActive := true));
        var f := FireSpreadShot(m, StartBurst(m, paid, opponent));
        Fired(FirstShotFired(f.state, SPECIAL_B.cooldown), f.shots)
      else
        var f := CreateProjectile(m, s, WEAPON_B, opponent);
        Fired(Rearm(f.state, WEAPON_B.cooldown), f.shots)
    else
      Fired(s, [])
  }

  /** The hyper key outside hyper mode activates it when the gauge allows. */
  function HyperKeyStep(s: PlayerState): PlayerState {
    if s.keys.hyper && !s.hyper.isActive && s.vitals.hyperGauge >= HYPER_ACTIVATION_COST then ActivateHyper(s) else s
  }

  /** The hyper key in hyper mode: the laser first (10 more gauge, 40 frames), weapon-A beams after it. */
  function HyperFireStep(m: Math, s: PlayerState, opponent: Point): Fired {
    if s.hyper.isActive && s.keys.hyper && s.guns.shootCooldown <= 0 then
      if !s.hyper.hasFiredLaser then
        var f := CreateProjectile(m, s, HYPER_LASER, opponent);
        var t := Rearm(f.state, HYPER_LASER_COOLDOWN);
        Fired(t.(hyper := t.hyper.(hasFiredLaser := true),
                 vitals := t.vitals.(hyperGauge := t.vitals.hyperGauge - HYPER_LASER_COST)),
              [LaserProjectile(NewProjectile(m, s, HYPER_LASER, AimAngle(m, s, opponent)))])
      else
        var f := CreateProjectile(m, s, WEAPON_A, opponent);
        Fired(Rearm(f.state, WEAPON_A.cooldown), f.shots)
    else
      Fired(s, [])
  }

  /** handle_weapons: nothing while shielded; otherwise the five key checks in the source's order. */
  function HandleWeapons(m: Math, s: PlayerState, opponent: Point): Fired {
    if s.shield.isActive then Fired(s, [])
    else
      var a := WeaponAStep(m, s, opponent);
      var b := WeaponBStep(m, a.state, opponent);
      var c := SpecialStep(m, b.state, opponent);
      var l := HyperFireStep(m, HyperKeyStep(c.state), opponent);
      Fired(l.state, a.shots + b.shots + c.shots + l.shots)
  }

  // ---------------------------------------------------------------- damage

  /** take_damage: a shielded player takes nothing; otherwise health drops and the gauge gains a fifth of the damage. */
  function TakeDamage(s: PlayerState, amount: real): PlayerState {
    if !s.shield.isActive then
      s.(vitals := s.vitals.(health := s.vitals.health - amount,
                             hyperGauge := Min(MAX_HYPER, s.vitals.hyperGauge + amount / 5.0)))
    else
      s
  }

  /** collides_with: the centres are closer than the two radii together. */
  function CollidesWith(m: Math, s: PlayerState, p: ProjectileState): bool {
    Dist(m, s.body.x, s.body.y, p.x, p.y) < PLAYER_RADIUS + p.radius
  }

  // ---------------------------------------------------------------- the frame

  /** The steps of update from the keys to the shield, before the weapons; burst shots are returned. */
  function PreWeapons(m: Math, arena: Arena, s: PlayerState, opponent: Point, keys: Intent): Fired
    requires Lawful(m)
  {
    var s1 := Face(m, s.(keys := keys), opponent);
    var s2 := HeatFromMotion(m, MoveRule(m, arena, s1));
    var s3 := TickCooldowns(s2.(dash := s2.dash.(rings := AgeRings(s2.dash.rings))));
    var b := BurstTick(m, s3);
    Fired(ShieldStep(BorderDrain(m, arena, HyperTick(DecayHeat(b.state)))), b.shots)
  }

  /** Player.update with this frame's keys: everything, then the weapons; all projectiles fired, in order. */
  function Tick(m: Math, arena: Arena, s: PlayerState, opponent: Point, keys: Intent): Fired
    requires Lawful(m)
  {
    var pre := PreWeapons(m, arena, s, opponent, keys);
    var w := HandleWeapons(m, pre.state, opponent);
    Fired(w.state, pre.shots + w.shots)
  }
}
