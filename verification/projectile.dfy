/**
 * Projectiles (backup/game/projectile.py): the base projectile and its three
 * subtypes, which differ only in their constants, in the hyper-gauge reward
 * they grant their owner on a hit, and, for the melee subtype, in following
 * the owner. The subtype is the `Kind` tag; a projectile's owner is the
 * player index (0 for player 1, 1 for player 2).
 *
 * The value-level rules (`ProjectileState` and the functions over it) are
 * the specification; the `Projectile` class updates its fields in place and
 * is proved to follow them.
 */
module Projectiles {
  import opened Numeric
  import opened Constants
  import opened Wrappers

  /** The subtype; only a beam has a drawn length. */
  datatype Kind = Beam(length: real) | Ballistic | Melee

  datatype ProjectileState = ProjectileState(
    x: real, y: real, angle: real, damage: real, owner: int,
    radius: real, speed: real, isDead: bool, lifetime: int,
    homing: bool, homingStrength: real, kind: Kind)

  /** What the model relies on everywhere: a projectile belongs to one of the two players and never heals. */
  predicate WellFormed(p: ProjectileState) {
    (p.owner == 0 || p.owner == 1) && 0.0 <= p.damage
  }

  /** Projectile.__init__: the defaults every subtype starts from. */
  function Spawn(x: real, y: real, angle: real, damage: real, owner: int, kind: Kind): ProjectileState {
    ProjectileState(x, y, angle, damage, owner, 5.0, 0.0, false, 60, false, 0.0, kind)
  }

  /** BeamProjectile.__init__. */
  function SpawnBeam(x: real, y: real, angle: real, damage: real, owner: int): ProjectileState {
    Spawn(x, y, angle, damage, owner, Beam(20.0)).(speed := 15.0, radius := 3.0, homing := true, homingStrength := 0.02)
  }

  /** BallisticProjectile.__init__. */
  function SpawnBallistic(x: real, y: real, angle: real, damage: real, owner: int): ProjectileState {
    Spawn(x, y, angle, damage, owner, Ballistic).(speed := 8.0, radius := 6.0, homing := true, homingStrength := 0.03)
  }

  /** MeleeProjectile.__init__: starts 20 units ahead of the given point and does not home. */
  function SpawnMelee(m: Math, x: real, y: real, angle: real, damage: real, owner: int): ProjectileState {
    var p := Spawn(x, y, angle, damage, owner, Melee).(speed := 12.0, radius := 15.0, lifetime := 10);
    p.(x := p.x + m.cos(angle) * 20.0, y := p.y + m.sin(angle) * 20.0, homing := false)
  }

  /** The hyper-gauge reward each subtype's on_hit grants its owner. */
  function Reward(k: Kind): real {
    match k
    case Beam(_) => BEAM_HIT_REWARD
    case Ballistic => BALLISTIC_HIT_REWARD
    case Melee => MELEE_HIT_REWARD
  }

  /**
   * The signed turn from heading `current` to heading `target`, wrapped into
   * [-pi, pi) with Python's floor-modulo: it differs from target - current
   * by a whole number of turns.
   */
  function AngleDiff(target: real, current: real): (r: real)
    ensures -PI <= r < PI
    ensures ((target - current - r) / (2.0 * PI)).Floor as real == (target - current - r) / (2.0 * PI)
  {
    var w := FMod(target - current + PI, 2.0 * PI);
    assert target - current - (w - PI) == (target - current + PI) - w;
    w - PI
  }

  /**
   * home_towards: unless there is no target or the projectile is dead, turn
   * the heading by a fraction (the homing strength) of the wrapped angle to
   * the target.
   */
  function HomeTowardsRule(m: Math, p: ProjectileState, target: Option<Point>): ProjectileState {
    if target.None? || p.isDead then p
    else
      var targetAngle := m.atan2(target.value.y - p.y, target.value.x - p.x);
      p.(angle := p.angle + AngleDiff(targetAngle, p.angle) * p.homingStrength)
  }

  /** The player a homing projectile steers toward: the one that does not own it. */
  function HomingTarget(p: ProjectileState, p1: Point, p2: Point): Point {
    if p.owner != 0 then p1 else p2
  }

  /** The owning player's position (0 is player 1). */
  function OwnerPosition(p: ProjectileState, p1: Point, p2: Point): Point {
    if p.owner == 0 then p1 else p2
  }

  /** The heading a projectile flies this frame, after homing. */
  function Steered(m: Math, p: ProjectileState, p1: Point, p2: Point): ProjectileState {
    if p.homing then HomeTowardsRule(m, p, Some(HomingTarget(p, p1, p2))) else p
  }

  /**
   * The flight part of update: advance `speed` along the heading, age by one
   * frame, and die when the lifetime runs out or the new position is
   * outside the arena circle.
   */
  function Fly(m: Math, p: ProjectileState): ProjectileState {
    var a := Ahead(m, p);
    var moved := p.(x := a.x, y := a.y);
    var aged := moved.(lifetime := moved.lifetime - 1);
    var expired := if aged.lifetime <= 0 then aged.(isDead := true) else aged;
    if Dist(m, expired.x, expired.y, ARENA_CENTER_X, ARENA_CENTER_Y) > ARENA_RADIUS then expired.(isDead := true)
    else expired
  }

  /** The point `speed` ahead of a projectile along its heading. */
  function Ahead(m: Math, p: ProjectileState): Point {
    Point(p.x + m.cos(p.angle) * p.speed, p.y + m.sin(p.angle) * p.speed)
  }

  /** MeleeProjectile.update's extra step: a living melee strike snaps to 20 units ahead of its owner. */
  function Follow(m: Math, p: ProjectileState, p1: Point, p2: Point): ProjectileState {
    if p.kind.Melee? && !p.isDead then
      var o := OwnerPosition(p, p1, p2);
      p.(x := o.x + m.cos(p.angle) * 20.0, y := o.y + m.sin(p.angle) * 20.0)
    else
      p
  }

  /** update: home, fly, and (melee only) follow the owner; p1 and p2 are the players' positions. */
  function UpdateRule(m: Math, p: ProjectileState, p1: Point, p2: Point): ProjectileState {
    Follow(m, Fly(m, Steered(m, p, p1, p2)), p1, p2)
  }

  /** on_hit: the projectile dies and its owner's gauge (passed in, returned) gains the subtype's reward, capped. */
  function OnHitRule(p: ProjectileState, ownerGauge: real): (ProjectileState, real) {
    (p.(isDead := true), Min(MAX_HYPER, ownerGauge + Reward(p.kind)))
  }

  /** reflect: the heading turns half a circle (wrapped into [0, 2 pi)) and the reflector takes ownership. */
  function ReflectRule(p: ProjectileState, reflector: int): ProjectileState {
    p.(angle := FMod(p.angle + PI, 2.0 * PI), owner := reflector)
  }

  /**
   * The three subtypes as constructed: alive, owned by the shooter, with the
   * weapon's damage and heading; beams and ballistic shots home and start at
   * the muzzle; a melee strike starts 20 units ahead and does not home.
   */
  lemma SpawnSpec(m: Math, x: real, y: real, angle: real, damage: real, owner: int)
    requires Lawful(m)
    ensures forall p <- [SpawnBeam(x, y, angle, damage, owner), SpawnBallistic(x, y, angle, damage, owner),
                         SpawnMelee(m, x, y, angle, damage, owner)] ::
              !p.isDead && p.owner == owner && p.damage == damage && p.angle == angle
    ensures var b := SpawnBeam(x, y, angle, damage, owner);
      b.homing && b.homingStrength == 0.02 && b.speed == 15.0 && b.radius == 3.0 && b.lifetime == 60 && (b.x, b.y) == (x, y)
    ensures var b := SpawnBallistic(x, y, angle, damage, owner);
      b.homing && b.homingStrength == 0.03 && b.speed == 8.0 && b.radius == 6.0 && b.lifetime == 60 && (b.x, b.y) == (x, y)
    ensures var b := SpawnMelee(m, x, y, angle, damage, owner);
      !b.homing && b.speed == 12.0 && b.radius == 15.0 && b.lifetime == 10 && DistSq(b.x, b.y, x, y) == 400.0
  {
    var b := SpawnMelee(m, x, y, angle, damage, owner);
    UnitHeading(m, angle);
    ScaledUnit(m.cos(angle), m.sin(angle), 20.0);
    assert b.x - x == m.cos(angle) * 20.0 && b.y - y == m.sin(angle) * 20.0;
  }

  /** A unit vector scaled by k is k long. */
  lemma ScaledUnit(c: real, s: real, k: real)
    requires c * c + s * s == 1.0
    ensures (c * k) * (c * k) + (s * k) * (s * k) == k * k
  {
    assert (c * k) * (c * k) + (s * k) * (s * k) == (c * c + s * s) * (k * k);
  }

  /**
   * Homing only turns the heading, and by at most pi times the homing
   * strength; it is a no-op with no target or on a dead projectile.
   */
  lemma HomeTowardsSpec(m: Math, p: ProjectileState, target: Option<Point>)
    requires 0.0 <= p.homingStrength
    ensures var q := HomeTowardsRule(m, p, target);
      && q == p.(angle := q.angle)
      && (target.None? || p.isDead ==> q == p)
      && -PI * p.homingStrength <= q.angle - p.angle <= PI * p.homingStrength
  {
    var q := HomeTowardsRule(m, p, target);
    if !(target.None? || p.isDead) {
      var k := p.homingStrength;
      var diff := AngleDiff(m.atan2(target.value.y - p.y, target.value.x - p.x), p.angle);
      assert q == p.(angle := p.angle + diff * k);
      BoundedTurn(p.angle, q.angle, diff, PI, k);
    }
  }

  /** Turning by a k with |a| <= b and 0 <= k moves the heading by at most b k either way. */
  lemma BoundedTurn(before: real, after: real, a: real, b: real, k: real)
    requires after == before + a * k
    requires -b <= a <= b && 0.0 <= k
    ensures -b * k <= after - before <= b * k
  {
    MulNonneg(b - a, k);
    MulNonneg(a + b, k);
    assert (b - a) * k == b * k - a * k;
    assert (a + b) * k == a * k + b * k;
  }

  /**
   * One frame of flight: the homing target is the player that does not own
   * the projectile; the lifetime drops by one; the projectile dies exactly
   * when it was dead already, its lifetime ran out, or the point it flew to
   * is outside the arena circle; and only position, heading, lifetime and
   * death change.
   */
  lemma UpdateSpec(m: Math, p: ProjectileState, p1: Point, p2: Point)
    ensures var h := Steered(m, p, p1, p2);
      var q := UpdateRule(m, p, p1, p2);
      var a := Ahead(m, h);
      && q.lifetime == p.lifetime - 1
      && (q.isDead <==> p.isDead || p.lifetime <= 1 || Dist(m, a.x, a.y, ARENA_CENTER_X, ARENA_CENTER_Y) > ARENA_RADIUS)
      && q == p.(x := q.x, y := q.y, angle := h.angle, lifetime := q.lifetime, isDead := q.isDead)
  {
    var h := Steered(m, p, p1, p2);
    SteeredOnlyTurns(m, p, p1, p2);
    var f := Fly(m, h);
    FlyFields(m, h);
    FollowOnlyMoves(m, f, p1, p2);
    assert UpdateRule(m, p, p1, p2) == Follow(m, f, p1, p2);
  }

  /** Steering changes nothing but the heading. */
  lemma SteeredOnlyTurns(m: Math, p: ProjectileState, p1: Point, p2: Point)
    ensures Steered(m, p, p1, p2) == p.(angle := Steered(m, p, p1, p2).angle)
  {
  }

  /** The flight step on its own: where the projectile goes, and when it dies. */
  lemma FlyFields(m: Math, h: ProjectileState)
    ensures var f := Fly(m, h);
      var a := Ahead(m, h);
      && f == h.(x := a.x, y := a.y, lifetime := h.lifetime - 1, isDead := f.isDead)
      && (f.isDead <==> h.isDead || h.lifetime <= 1 || Dist(m, a.x, a.y, ARENA_CENTER_X, ARENA_CENTER_Y) > ARENA_RADIUS)
  {
  }

  /** With a lawful square root, leaving the arena is a comparison of squared distances. */
  lemma FlySpec(m: Math, h: ProjectileState)
    requires Lawful(m)
    ensures var f := Fly(m, h);
      var a := Ahead(m, h);
      f.isDead <==> h.isDead || h.lifetime <= 1 || DistSq(a.x, a.y, ARENA_CENTER_X, ARENA_CENTER_Y) > ARENA_RADIUS * ARENA_RADIUS
  {
    FlyFields(m, h);
    var a := Ahead(m, h);
    var v := DistSq(a.x, a.y, ARENA_CENTER_X, ARENA_CENTER_Y);
    SqrtBelow(m, v, ARENA_RADIUS);
    SqrtOfSquare(m, ARENA_RADIUS);
  }

  /**
   * Where a projectile goes in one frame: a non-melee projectile moves
   * exactly `speed` from where it was; a melee strike that survives sits 20
   * units from its owner.
   */
  lemma UpdateMotion(m: Math, p: ProjectileState, p1: Point, p2: Point)
    requires Lawful(m)
    ensures var q := UpdateRule(m, p, p1, p2);
      && (!p.kind.Melee? ==> DistSq(q.x, q.y, p.x, p.y) == p.speed * p.speed)
      && (p.kind.Melee? && !q.isDead ==>
            var o := OwnerPosition(p, p1, p2); DistSq(q.x, q.y, o.x, o.y) == 400.0)
  {
    var h := Steered(m, p, p1, p2);
    SteeredOnlyTurns(m, p, p1, p2);
    var f := Fly(m, h);
    FlyMotion(m, h);
    FollowOnlyMoves(m, f, p1, p2);
    FollowMotion(m, f, p1, p2);
  }

  /** The flight step moves a projectile exactly `speed` from where it was. */
  lemma FlyMotion(m: Math, h: ProjectileState)
    requires Lawful(m)
    ensures var f := Fly(m, h);
      DistSq(f.x, f.y, h.x, h.y) == h.speed * h.speed && f.kind == h.kind && f.owner == h.owner
  {
    var c, s := m.cos(h.angle), m.sin(h.angle);
    UnitHeading(m, h.angle);
    ScaledUnit(c, s, h.speed);
    var f := Fly(m, h);
    assert f.x - h.x == c * h.speed && f.y - h.y == s * h.speed;
  }

  /** Following changes at most the position, and only that of a melee strike. */
  lemma FollowOnlyMoves(m: Math, f: ProjectileState, p1: Point, p2: Point)
    ensures var q := Follow(m, f, p1, p2);
      && q == f.(x := q.x, y := q.y)
      && (!f.kind.Melee? ==> q == f)
  {
  }

  /** Following puts a living melee strike 20 units from its owner. */
  lemma FollowMotion(m: Math, f: ProjectileState, p1: Point, p2: Point)
    requires Lawful(m)
    ensures var q := Follow(m, f, p1, p2);
      f.kind.Melee? && !q.isDead ==>
        var o := OwnerPosition(f, p1, p2); DistSq(q.x, q.y, o.x, o.y) == 400.0
  {
    if f.kind.Melee? && !f.isDead {
      UnitHeading(m, f.angle);
      ScaledUnit(m.cos(f.angle), m.sin(f.angle), 20.0);
    }
  }

  /** Death is final: no operation brings a dead projectile back. */
  lemma DeathIsFinal(m: Math, p: ProjectileState, p1: Point, p2: Point, target: Option<Point>, reflector: int, gauge: real)
    requires p.isDead
    ensures UpdateRule(m, p, p1, p2).isDead
    ensures HomeTowardsRule(m, p, target) == p
    ensures ReflectRule(p, reflector).isDead && OnHitRule(p, gauge).0.isDead
  {
  }

  /**
   * A reflection hands the projectile to the reflector and reverses its
   * heading (modulo whole turns) into [0, 2 pi); nothing else changes.
   */
  lemma ReflectSpec(p: ProjectileState, reflector: int)
    ensures var q := ReflectRule(p, reflector);
      && q.owner == reflector
      && 0.0 <= q.angle < 2.0 * PI
      && ((p.angle + PI - q.angle) / (2.0 * PI)).Floor as real == (p.angle + PI - q.angle) / (2.0 * PI)
      && q == p.(angle := q.angle, owner := reflector)
  {
  }

  /** Reflecting twice restores the original heading, wrapped into [0, 2 pi). */
  lemma ReflectTwice(p: ProjectileState, first: int, second: int)
    ensures ReflectRule(ReflectRule(p, first), second).angle == FMod(p.angle, 2.0 * PI)
    ensures ReflectRule(ReflectRule(p, first), second).owner == second
  {
    var tau := 2.0 * PI;
    var q := ((p.angle + PI) / tau).Floor;
    var u := FMod(p.angle + PI, tau);
    assert u == p.angle + PI - q as real * tau by {
      FloorDivBounds(p.angle + PI, tau);
    }
    var n := 1 - q;
    assert n as real * tau == tau - q as real * tau;
    assert u + PI == p.angle + n as real * tau;
    FModShift(p.angle, tau, n);
  }

  /**
   * A hit kills the projectile and raises the owner's gauge by the
   * subtype's reward, never past the cap and never lowering a gauge that is
   * within the cap; the melee reward is the largest and the beam's the
   * smallest.
   */
  lemma OnHitSpec(p: ProjectileState, ownerGauge: real)
    ensures var (q, g) := OnHitRule(p, ownerGauge);
      && q == p.(isDead := true)
      && g <= MAX_HYPER
      && (ownerGauge <= MAX_HYPER ==> ownerGauge < g || g == MAX_HYPER)
      && g == Min(MAX_HYPER, ownerGauge + Reward(p.kind))
      && (ownerGauge + Reward(p.kind) >= MAX_HYPER ==> g == MAX_HYPER)
    ensures Reward(Beam(0.0)) < Reward(Ballistic) < Reward(Melee)
  {
  }

  /** A projectile object; its fields are the ones the source's classes set. */
  class Projectile {
    var x: real
    var y: real
    var angle: real
    var damage: real
    var owner: int
    var radius: real
    var speed: real
    var isDead: bool
    var lifetime: int
    var homing: bool
    var homingStrength: real
    var kind: Kind

    /** The projectile's state as a value. */
    function Val(): ProjectileState
      reads this
    {
      ProjectileState(x, y, angle, damage, owner, radius, speed, isDead, lifetime, homing, homingStrength, kind)
    }

    constructor BeamProjectile(x0: real, y0: real, angle0: real, damage0: real, owner0: int)
      ensures Val() == SpawnBeam(x0, y0, angle0, damage0, owner0)
    {
      x, y, angle, damage, owner := x0, y0, angle0, damage0, owner0;
      radius, speed, isDead, lifetime := 3.0, 15.0, false, 60;
      homing, homingStrength, kind := true, 0.02, Beam(20.0);
    }

    constructor BallisticProjectile(x0: real, y0: real, angle0: real, damage0: real, owner0: int)
      ensures Val() == SpawnBallistic(x0, y0, angle0, damage0, owner0)
    {
      x, y, angle, damage, owner := x0, y0, angle0, damage0, owner0;
      radius, speed, isDead, lifetime := 6.0, 8.0, false, 60;
      homing, homingStrength, kind := true, 0.03, Ballistic;
    }

    constructor MeleeProjectile(m: Math, x0: real, y0: real, angle0: real, damage0: real, owner0: int)
      ensures Val() == SpawnMelee(m, x0, y0, angle0, damage0, owner0)
    {
      x, y, angle, damage, owner := x0, y0, angle0, damage0, owner0;
      radius, speed, isDead, lifetime := 15.0, 12.0, false, 10;
      homing, homingStrength, kind := false, 0.0, Melee;
      new;
      x := x + m.cos(angle0) * 20.0;
      y := y + m.sin(angle0) * 20.0;
      homing := false;
    }

    /** home_towards; `None` is a missing target. */
    method HomeTowards(m: Math, target: Option<Point>)
      modifies this
      ensures Val() == HomeTowardsRule(m, old(Val()), target)
    {
      if target.None? || isDead {
        return;
      }
      var dx := target.value.x - x;
      var dy := target.value.y - y;
      var targetAngle := m.atan2(dy, dx);
      var angleDiff := AngleDiff(targetAngle, angle);
      angle := angle + angleDiff * homingStrength;
    }

    /** Projectile.update, the base class's step: home, then fly. */
    method BaseUpdate(m: Math, p1: Point, p2: Point)
      modifies this
      ensures Val() == Fly(m, Steered(m, old(Val()), p1, p2))
    {
      Steer(m, p1, p2);
      Advance(m);
    }

    /** The homing part of update: turn towards the opposing player if homing. */
    method Steer(m: Math, p1: Point, p2: Point)
      modifies this
      ensures Val() == Steered(m, old(Val()), p1, p2)
    {
      if homing && owner != 0 {
        HomeTowards(m, Some(p1));
      } else if homing && owner == 0 {
        HomeTowards(m, Some(p2));
      }
    }

    /** The flight part of update: move, age, and die when expired or out of the arena. */
    method Advance(m: Math)
      modifies this
      ensures Val() == Fly(m, old(Val()))
    {
      ghost var before := Val();
      x := x + m.cos(angle) * speed;
      y := y + m.sin(angle) * speed;
      lifetime := lifetime - 1;
      if lifetime <= 0 {
        isDead := true;
      }
      assert Point(x, y) == Ahead(m, before);
      var distance := Dist(m, x, y, ARENA_CENTER_X, ARENA_CENTER_Y);
      if distance > ARENA_RADIUS {
        isDead := true;
      }
    }

    /** update as dispatched on the subtype: MeleeProjectile.update runs the base step and then follows its owner. */
    method Update(m: Math, p1: Point, p2: Point)
      modifies this
      ensures Val() == UpdateRule(m, old(Val()), p1, p2)
    {
      BaseUpdate(m, p1, p2);
      if kind.Melee? && !isDead {
        var o := if owner == 0 then p1 else p2;
        x := o.x + m.cos(angle) * 20.0;
        y := o.y + m.sin(angle) * 20.0;
      }
    }

    /** on_hit; the owner's gauge is passed in and its new value returned for the caller to store. */
    method OnHit(ownerGauge: real) returns (newOwnerGauge: real)
      modifies this
      ensures (Val(), newOwnerGauge) == OnHitRule(old(Val()), ownerGauge)
    {
      isDead := true;
      newOwnerGauge := Min(MAX_HYPER, ownerGauge + Reward(kind));
    }

    /** reflect. */
    method Reflect(reflector: int)
      modifies this
      ensures Val() == ReflectRule(old(Val()), reflector)
    {
      angle := FMod(angle + PI, 2.0 * PI);
      owner := reflector;
    }
  }
}
