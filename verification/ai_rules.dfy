/**
 * The computer players (game/ai.py; game/game.py carries an identical copy
 * of each rule, which is the one Game.update calls). Every random draw is
 * an explicit input. The AI's per-player memory (the frames since the
 * walking direction was chosen, and that direction) is a value here; the
 * game object holds one per player and writes it back (game.dfy).
 */
module AiRules {
  import opened Numeric
  import opened Constants
  import opened Wrappers
  import opened Projectiles
  import opened PlayerRules

  /** The stored walking direction of an AI player (the ai_move_direction dictionary). */
  datatype Movement = Movement(up: bool, down: bool, left: bool, right: bool, dash: bool)

  const STILL: Movement := Movement(false, false, false, false, false)

  /** One player's AI memory: frames since the direction was chosen, and that direction. */
  datatype AiMemory = AiMemory(timer: int, direction: Movement)

  /** The projectile predicted to hit first, when it hits and where it will be then. */
  datatype Threat = Threat(proj: ProjectileState, time: real, hitX: real, hitY: real)

  datatype Vertical = Up | Down | NoVertical
  datatype Horizontal = Left | Right | NoHorizontal
  datatype Side = SideUp | SideDown | SideLeft | SideRight

  /** The draws of decide_movement_style, in the order it makes them. */
  datatype StyleDraws = StyleDraws(
    dash: real, style: int, clockwise: real, vertical: Vertical, horizontal: Horizontal, fallback: Side)

  /** The draws of one auto_test_ai_control call (each is used at most once). */
  datatype AiDraws = AiDraws(
    flip: real, evadeShield: real, style: StyleDraws,
    weaponA: real, weaponB: real, special: real, shield: real, hyper: real)

  // ---------------------------------------------------------------- the intercept quadratic

  function Velocity(m: Math, p: ProjectileState): Point {
    Point(m.cos(p.angle) * p.speed, m.sin(p.angle) * p.speed)
  }

  datatype Quadratic = Quadratic(a: real, b: real, c: real)

  function Eval(q: Quadratic, t: real): real {
    q.a * t * t + q.b * t + q.c
  }

  /** The contact distance of the player and a projectile: the two radii together. */
  function Reach(p: ProjectileState): real {
    PLAYER_RADIUS + p.radius
  }

  /**
   * The quadratic predict_projectile_collision sets up, as written: with
   * D the offset from the projectile to the player and v its velocity,
   * a = |v|^2, b = +2 v.D and c = |D|^2 - reach^2.
   */
  function CodeQuadratic(m: Math, s: PlayerState, p: ProjectileState): Quadratic {
    var v := Velocity(m, p);
    var dx := s.body.x - p.x;
    var dy := s.body.y - p.y;
    Quadratic(v.x * v.x + v.y * v.y, 2.0 * (v.x * dx + v.y * dy), dx * dx + dy * dy - Reach(p) * Reach(p))
  }

  /**
   * The hit time the scan takes from a quadratic: nothing when it has no
   * real roots or a is not positive; otherwise the smaller root when it is
   * positive, else the larger one when that is, else nothing.
   */
  function HitTime(m: Math, q: Quadratic): Option<real> {
    var disc := q.b * q.b - 4.0 * q.a * q.c;
    if disc < 0.0 || q.a <= 0.0 then None
    else
      var t1 := (-q.b - m.sqrt(disc)) / (2.0 * q.a);
      var t2 := (-q.b + m.sqrt(disc)) / (2.0 * q.a);
      if t1 > 0.0 then Some(t1) else if t2 > 0.0 then Some(t2) else None
  }

  /** The frames within which a hit counts as a threat. */
  const HORIZON: real := 60.0

  /**
   * One step of the scan: projectile p replaces the best threat so far when
   * it is the opponent's, has a hit time, hits strictly sooner and within
   * HORIZON.
   */
  function Consider(m: Math, s: PlayerState, best: Option<Threat>, p: ProjectileState): Option<Threat> {
    if p.owner == Owner(s) then best
    else
      match HitTime(m, CodeQuadratic(m, s, p))
      case None => best
      case Some(t) =>
        if (best.None? || t < best.value.time) && t < HORIZON then Some(ThreatAt(m, p, t))
        else best
  }

  /** Projectile p hitting after t frames, at the point it will have travelled to by then. */
  function ThreatAt(m: Math, p: ProjectileState, t: real): Threat {
    var v := Velocity(m, p);
    Threat(p, t, p.x + v.x * t, p.y + v.y * t)
  }

  /**
   * predict_projectile_collision: over the opponent's projectiles, in list
   * order, the one with the smallest hit time below HORIZON (the first of
   * equals), with the point it will have reached then.
   */
  function Predict(m: Math, s: PlayerState, ps: seq<ProjectileState>): Option<Threat> {
    if |ps| == 0 then None
    else Consider(m, s, Predict(m, s, ps[..|ps| - 1]), ps[|ps| - 1])
  }

  /** The scan of predict_projectile_collision. */
  method PredictProjectileCollision(m: Math, s: PlayerState, ps: seq<ProjectileState>) returns (r: Option<Threat>)
    ensures r == Predict(m, s, ps)
  {
    r := None;
    var i := 0;
    while i < |ps|
      invariant 0 <= i <= |ps|
      invariant r == Predict(m, s, ps[..i])
    {
      var p := ps[i];
      assert ps[..i + 1][..i] == ps[..i] && ps[..i + 1][i] == p;
      assert Predict(m, s, ps[..i + 1]) == Consider(m, s, r, p);
      if p.owner != Owner(s) {
        match HitTime(m, CodeQuadratic(m, s, p)) {
          case None =>
          case Some(t) =>
            if (r.None? || t < r.value.time) && t < HORIZON {
              r := Some(ThreatAt(m, p, t));
            }
        }
      }
      i := i + 1;
    }
    assert ps[..i] == ps;
  }

  /** A projectile of the opponent's within `threshold` of the player. */
  predicate Nearby(m: Math, s: PlayerState, ps: seq<ProjectileState>, threshold: real) {
    exists i :: 0 <= i < |ps| && ps[i].owner != Owner(s) && Dist(m, s.body.x, s.body.y, ps[i].x, ps[i].y) < threshold
  }

  /** is_projectile_nearby: the scan stops at the first such projectile. */
  method IsProjectileNearby(m: Math, s: PlayerState, ps: seq<ProjectileState>, threshold: real) returns (r: bool)
    ensures r <==> Nearby(m, s, ps, threshold)
  {
    var i := 0;
    while i < |ps|
      invariant 0 <= i <= |ps|
      invariant forall j :: 0 <= j < i ==> !(ps[j].owner != Owner(s) && Dist(m, s.body.x, s.body.y, ps[j].x, ps[j].y) < threshold)
    {
      if ps[i].owner != Owner(s) && Dist(m, s.body.x, s.body.y, ps[i].x, ps[i].y) < threshold {
        return true;
      }
      i := i + 1;
    }
    return false;
  }

  // ---------------------------------------------------------------- evasion

  /**
   * The evasion heading: the left perpendicular (-sin a, cos a) of the
   * threatening projectile's heading a, turned round when far from the
   * centre and it points away from the centre, or on a coin flip near the
   * centre.
   */
  function EvasionDirection(m: Math, s: PlayerState, threat: Threat, flip: real): Point {
    var px := -m.sin(threat.proj.angle);
    var py := m.cos(threat.proj.angle);
    var ax := ARENA_CENTER_X - s.body.x;
    var ay := ARENA_CENTER_Y - s.body.y;
    var distance := Dist(m, s.body.x, s.body.y, ARENA_CENTER_X, ARENA_CENTER_Y);
    if distance > ARENA_RADIUS * 0.7 then
      var norm := if distance == 0.0 then 1.0 else distance;
      var dot := ax / norm * px + ay / norm * py;
      if dot < 0.0 then Point(-px, -py) else Point(px, py)
    else if flip < 0.5 then Point(-px, -py)
    else Point(px, py)
  }

  /** The evasion keys: the direction keys of the evasion heading's signs, dash, and the shield when the hit is close. */
  function EvadeKeys(m: Math, s: PlayerState, threat: Threat, flip: real, shieldRoll: real): Intent {
    var e := EvasionDirection(m, s, threat, flip);
    NO_KEYS.(up := e.y < 0.0, down := e.y > 0.0, left := e.x < 0.0, right := e.x > 0.0, dash := true,
             shield := threat.time < 15.0 && shieldRoll < 0.7)
  }

  // ---------------------------------------------------------------- wandering

  /**
   * decide_movement_style: chase or keep away (styles 0-5), circle the
   * opponent (6-7), head for the centre (8), or a random compound direction
   * (9-10); dash on a 40% draw.
   */
  function DecideMovementStyle(m: Math, s: PlayerState, opponent: Point, d: StyleDraws): Movement {
    var dx := opponent.x - s.body.x;
    var dy := opponent.y - s.body.y;
    var distance := Dist(m, s.body.x, s.body.y, opponent.x, opponent.y);
    var ax := ARENA_CENTER_X - s.body.x;
    var ay := ARENA_CENTER_Y - s.body.y;
    var dash := d.dash < 0.4;
    if d.style <= 5 then
      if distance > 150.0 then Movement(dy < 0.0, dy > 0.0, dx < 0.0, dx > 0.0, dash)
      else Movement(dy > 0.0, dy < 0.0, dx > 0.0, dx < 0.0, dash)
    else if d.style <= 7 then
      if d.clockwise < 0.5 then Movement(dx > 0.0, dx < 0.0, dy > 0.0, dy < 0.0, dash)
      else Movement(dx < 0.0, dx > 0.0, dy < 0.0, dy > 0.0, dash)
    else if d.style <= 8 then Movement(ay < 0.0, ay > 0.0, ax < 0.0, ax > 0.0, dash)
    else
      var v := Movement(d.vertical == Up, d.vertical == Down, d.horizontal == Left, d.horizontal == Right, dash);
      if v.up || v.down || v.left || v.right then v
      else
        match d.fallback
        case SideUp => v.(up := true)
        case SideDown => v.(down := true)
        case SideLeft => v.(left := true)
        case SideRight => v.(right := true)
  }

  /**
   * auto_test_ai_control for player s (the AI timer already advanced by the
   * game): evade a predicted hit, resetting the memory to the evasion keys;
   * otherwise walk the stored direction (the one held before any resample
   * this frame), resample it once the timer reaches the interval, and fire,
   * shield and go hyper on the draws.
   */
  function AutoTestControl(
    m: Math, s: PlayerState, opponent: Point, ps: seq<ProjectileState>,
    mem: AiMemory, interval: int, r: AiDraws): (Intent, AiMemory)
  {
    match Predict(m, s, ps)
    case Some(threat) =>
      var keys := EvadeKeys(m, s, threat, r.flip, r.evadeShield);
      (keys, AiMemory(0, Movement(keys.up, keys.down, keys.left, keys.right, keys.dash)))
    case None =>
      var next := if mem.timer >= interval then AiMemory(0, DecideMovementStyle(m, s, opponent, r.style)) else mem;
      var d := mem.direction;
      var chance := if Nearby(m, s, ps, 70.0) then 0.7 else 0.1;
      (Intent(d.up, d.down, d.left, d.right, r.weaponA < 0.4, r.weaponB < 0.3, r.shield < chance, d.dash,
              s.vitals.hyperGauge >= 100.0 && r.hyper < 0.3, r.special < 0.1),
       next)
  }

  /**
   * simple_ai_control for player 2: walk towards a far player 1 or away
   * from a near one, with weapons, dash and hyper on the frame counter.
   */
  function SimpleAiControl(m: Math, p1: PlayerState, p2: PlayerState, currentTime: int): Intent {
    var dx := p1.body.x - p2.body.x;
    var dy := p1.body.y - p2.body.y;
    var distance := Dist(m, p2.body.x, p2.body.y, p1.body.x, p1.body.y);
    if distance > 150.0 then
      NO_KEYS.(right := dx > 0.0, left := dx <= 0.0, down := dy > 0.0, up := dy <= 0.0,
               weaponA := currentTime % 60 == 0)
    else
      NO_KEYS.(left := dx > 0.0, right := dx <= 0.0, up := dy > 0.0, down := dy <= 0.0,
               weaponA := currentTime % 30 == 0, weaponB := currentTime % 90 == 0,
               dash := currentTime % 120 == 0,
               hyper := p2.vitals.hyperGauge >= 100.0 && currentTime % 180 == 0)
  }
}
