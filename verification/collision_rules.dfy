/**
 * Collision resolution (Game.handle_collisions in game/game.py), stated on
 * values: the projectiles are visited in list order; a projectile that
 * touches a player it does not belong to either hurts that player (and is
 * removed, crediting its owner's gauge) or, against a raised shield, is
 * reflected and stays in the list. Player 1 is checked first and player 2
 * only when player 1 was not touched.
 */
module CollisionRules {
  import opened Numeric
  import opened Constants
  import opened Projectiles
  import opened PlayerRules
  import opened PlayerProperties

  /** The two players and the projectiles still in the list, in order. */
  datatype Field = Field(p1: PlayerState, p2: PlayerState, projectiles: seq<ProjectileState>)

  /** The damage of a hit: one percent more per point of the target's heat. */
  function HeatScaled(damage: real, heat: real): real {
    damage * (1.0 + heat / 100.0)
  }

  /** on_hit's effect on the owner: the subtype's reward added to its gauge, capped. */
  function Credit(owner: PlayerState, p: ProjectileState): PlayerState {
    owner.(vitals := owner.vitals.(hyperGauge := OnHitRule(p, owner.vitals.hyperGauge).1))
  }

  /**
   * One iteration of the collision loop: `f` holds the players and the
   * projectiles kept so far, and p is the next projectile of the old list.
   */
  function ResolveOne(m: Math, f: Field, p: ProjectileState): Field {
    if p.owner != 0 && CollidesWith(m, f.p1, p) then
      if !f.p1.shield.isActive then
        Field(TakeDamage(f.p1, HeatScaled(p.damage, f.p1.vitals.heat)), Credit(f.p2, p), f.projectiles)
      else
        Field(f.p1, f.p2, f.projectiles + [ReflectRule(p, 0)])
    else if p.owner != 1 && CollidesWith(m, f.p2, p) then
      if !f.p2.shield.isActive then
        Field(Credit(f.p1, p), TakeDamage(f.p2, HeatScaled(p.damage, f.p2.vitals.heat)), f.projectiles)
      else
        Field(f.p1, f.p2, f.projectiles + [ReflectRule(p, 1)])
    else
      Field(f.p1, f.p2, f.projectiles + [p])
  }

  /** handle_collisions: every projectile of the list resolved in order. */
  function ResolveAll(m: Math, p1: PlayerState, p2: PlayerState, ps: seq<ProjectileState>): Field {
    if |ps| == 0 then Field(p1, p2, [])
    else ResolveOne(m, ResolveAll(m, p1, p2, ps[..|ps| - 1]), ps[|ps| - 1])
  }

  // ---------------------------------------------------------------- one projectile

  /** A projectile never strikes its own owner: the owner's health, heat and shield are untouched. */
  lemma OwnerNotStruck(m: Math, f: Field, p: ProjectileState)
    ensures var r := ResolveOne(m, f, p);
            (p.owner == 0 ==> r.p1 == f.p1.(vitals := r.p1.vitals) &&
                              r.p1.vitals == f.p1.vitals.(hyperGauge := r.p1.vitals.hyperGauge)) &&
            (p.owner == 1 ==> r.p2 == f.p2.(vitals := r.p2.vitals) &&
                              r.p2.vitals == f.p2.vitals.(hyperGauge := r.p2.vitals.hyperGauge))
  {
  }

  /**
   * An unshielded hit on player 1: it loses the heat-scaled damage and
   * gains a fifth of it on its gauge up to MAX_HYPER, the owner (player 2) gains the subtype's reward up to MAX_HYPER, and the
   * projectile leaves the list. The same holds for player 2 with the roles
   * swapped.
   */
  lemma UnshieldedHit(m: Math, f: Field, p: ProjectileState)
    requires p.owner != 0 && CollidesWith(m, f.p1, p) && !f.p1.shield.isActive
    ensures var r := ResolveOne(m, f, p);
            r.projectiles == f.projectiles &&
            r.p1 == f.p1.(vitals := r.p1.vitals) &&
            r.p1.vitals.health == f.p1.vitals.health - p.damage * (1.0 + f.p1.vitals.heat / 100.0) &&
            r.p1.vitals.hyperGauge == Min(MAX_HYPER, f.p1.vitals.hyperGauge + p.damage * (1.0 + f.p1.vitals.heat / 100.0) / 5.0) &&
            r.p1.vitals == f.p1.vitals.(health := r.p1.vitals.health, hyperGauge := r.p1.vitals.hyperGauge) &&
            r.p2 == f.p2.(vitals := f.p2.vitals.(hyperGauge := Min(MAX_HYPER, f.p2.vitals.hyperGauge + Reward(p.kind))))
  {
  }

  /** A hit on a raised shield: neither player changes, and the projectile stays, reflected and owned by the shield's player. */
  lemma ShieldedHit(m: Math, f: Field, p: ProjectileState)
    requires p.owner != 0 && CollidesWith(m, f.p1, p) && f.p1.shield.isActive
    ensures var r := ResolveOne(m, f, p);
            r == Field(f.p1, f.p2, f.projectiles + [p.(angle := FMod(p.angle + PI, 2.0 * PI), owner := 0)])
  {
  }

  /** At most one player is struck by a projectile: the other keeps its health. */
  lemma OneTargetPerProjectile(m: Math, f: Field, p: ProjectileState)
    ensures var r := ResolveOne(m, f, p);
            r.p1.vitals.health == f.p1.vitals.health || r.p2.vitals.health == f.p2.vitals.health
  {
  }

  // ---------------------------------------------------------------- the whole list

  /** A kept projectile is an old one, untouched or reflected by one of the players. */
  predicate KeptFrom(q: ProjectileState, ps: seq<ProjectileState>) {
    exists i :: 0 <= i < |ps| && (q == ps[i] || q == ReflectRule(ps[i], 0) || q == ReflectRule(ps[i], 1))
  }

  /**
   * handle_collisions keeps at most the projectiles it was given, each of
   * them unchanged or reflected, and leaves each player's heat and shield
   * as they were.
   */
  lemma {:induction false} ResolveAllSpec(m: Math, p1: PlayerState, p2: PlayerState, ps: seq<ProjectileState>)
    ensures var r := ResolveAll(m, p1, p2, ps);
            |r.projectiles| <= |ps| &&
            (forall q :: q in r.projectiles ==> KeptFrom(q, ps)) &&
            r.p1.shield == p1.shield && r.p2.shield == p2.shield &&
            r.p1.vitals.heat == p1.vitals.heat && r.p2.vitals.heat == p2.vitals.heat
  {
    if |ps| > 0 {
      var init := ps[..|ps| - 1];
      ResolveAllSpec(m, p1, p2, init);
      var f := ResolveAll(m, p1, p2, init);
      var p := ps[|ps| - 1];
      var r := ResolveOne(m, f, p);
      forall q | q in r.projectiles
        ensures KeptFrom(q, ps)
      {
        if q in f.projectiles {
          assert KeptFrom(q, init);
          var i :| 0 <= i < |init| && (q == init[i] || q == ReflectRule(init[i], 0) || q == ReflectRule(init[i], 1));
          assert ps[i] == init[i];
        } else {
          assert ps[|ps| - 1] == p;
        }
      }
    }
  }

  /** With non-negative projectile damage, a hit on a player keeping the invariant is a non-negative amount. */
  lemma HeatScaledNonneg(damage: real, heat: real)
    requires 0.0 <= damage && -HEAT_DECREASE_RATE < heat
    ensures 0.0 <= HeatScaled(damage, heat)
  {
    assert 0.0 < 1.0 + heat / 100.0;
    MulNonneg(damage, 1.0 + heat / 100.0);
  }

  /**
   * With projectiles of non-negative damage, handle_collisions keeps both
   * players' invariant and never raises their health.
   */
  lemma {:induction false} ResolveAllInv(m: Math, p1: PlayerState, p2: PlayerState, ps: seq<ProjectileState>)
    requires Inv(p1) && Inv(p2)
    requires forall i :: 0 <= i < |ps| ==> 0.0 <= ps[i].damage
    ensures var r := ResolveAll(m, p1, p2, ps);
            Inv(r.p1) && Inv(r.p2) &&
            r.p1.vitals.health <= p1.vitals.health && r.p2.vitals.health <= p2.vitals.health
  {
    if |ps| > 0 {
      var init := ps[..|ps| - 1];
      ResolveAllInv(m, p1, p2, init);
      var f := ResolveAll(m, p1, p2, init);
      var p := ps[|ps| - 1];
      HeatScaledNonneg(p.damage, f.p1.vitals.heat);
      HeatScaledNonneg(p.damage, f.p2.vitals.heat);
      TakeDamageInv(f.p1, HeatScaled(p.damage, f.p1.vitals.heat));
      TakeDamageInv(f.p2, HeatScaled(p.damage, f.p2.vitals.heat));
    }
  }
}
