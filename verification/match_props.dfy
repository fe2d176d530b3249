/**
 * What a frame of the match keeps: every shot a player fires is its own and
 * well formed, and each step of Game.update, and so the whole frame, keeps
 * both players' invariant and sides and every projectile well formed.
 */
module MatchProperties {
  import opened Numeric
  import opened Constants
  import opened Wrappers
  import opened Projectiles
  import opened ArenaModel
  import opened PlayerRules
  import opened PlayerProperties
  import opened CollisionRules
  import opened AiRules
  import opened MatchRules

  // ---------------------------------------------------------------- what the match keeps

  /** The shots of a frame belong to the shooter and do no negative damage. */
  predicate OwnShots(shots: seq<ProjectileState>, owner: int) {
    forall i :: 0 <= i < |shots| ==> shots[i].owner == owner && WellFormed(shots[i])
  }

  /** A firing step: the shooter stays on its side and every shot is its own. */
  predicate FiredBy(f: Fired, s: PlayerState) {
    f.state.isPlayer1 == s.isPlayer1 && OwnShots(f.shots, Owner(s))
  }

  /** What holds between frames: both players keep their invariant and sides, and every projectile is well formed. */
  predicate WorldOk(w: World) {
    Inv(w.p1) && Inv(w.p2) && w.p1.isPlayer1 && !w.p2.isPlayer1 &&
    forall i :: 0 <= i < |w.projectiles| ==> WellFormed(w.projectiles[i])
  }

  lemma NewProjectileOwned(m: Math, s: PlayerState, w: Weapon, angle: real)
    requires 0.0 <= w.damage
    ensures var p := NewProjectile(m, s, w, angle);
            p.owner == Owner(s) && WellFormed(p)
  {
  }

  lemma CreateOwned(m: Math, s: PlayerState, w: Weapon, angle: real)
    requires 0.0 <= w.damage
    ensures FiredBy(CreateProjectileWithAngle(m, s, w, angle), s)
  {
    NewProjectileOwned(m, s, w, angle);
  }

  lemma BurstTickOwned(m: Math, s: PlayerState)
    ensures FiredBy(BurstTick(m, s), s)
  {
    if s.guns.burstActive {
      var t := s.(guns := s.guns.(burstTimer := s.guns.burstTimer - 1));
      if t.guns.burstTimer <= 0 && t.guns.burstCount < BURST_TOTAL {
        if t.guns.isSpecialSpreadActive {
          var a1 := BurstAngle(t.guns, t.guns.burstCount);
          var a2 := t.guns.burstBaseAngle + ((t.guns.burstCount - 2) as real * (PI / 8.0) + PI / 16.0);
          NewProjectileOwned(m, t, SPECIAL_B, a1);
          NewProjectileOwned(m, AfterShot(t), SPECIAL_B, a2);
        } else {
          NewProjectileOwned(m, t, WEAPON_B, BurstAngle(t.guns, t.guns.burstCount));
        }
      }
    }
  }

  lemma WeaponAOwned(m: Math, s: PlayerState, opponent: Point)
    ensures FiredBy(WeaponAStep(m, s, opponent), s)
  {
    CreateOwned(m, s, WEAPON_A, AimAngle(m, s, opponent));
  }

  lemma WeaponBOwned(m: Math, s: PlayerState, opponent: Point)
    ensures FiredBy(WeaponBStep(m, s, opponent), s)
  {
    var sb := StartBurst(m, s, opponent);
    NewProjectileOwned(m, sb, WEAPON_B, BurstAngle(sb.guns, sb.guns.burstCount));
  }

  lemma HyperOwned(m: Math, s: PlayerState, opponent: Point)
    ensures FiredBy(HyperFireStep(m, HyperKeyStep(s), opponent), s)
  {
    var h := HyperKeyStep(s);
    CreateOwned(m, h, HYPER_LASER, AimAngle(m, h, opponent));
    CreateOwned(m, h, WEAPON_A, AimAngle(m, h, opponent));
  }

  /** The weapon steps of a frame fire only the player's own, well-formed shots. */
  lemma WeaponsOwned(m: Math, s: PlayerState, opponent: Point)
    ensures FiredBy(HandleWeapons(m, s, opponent), s)
  {
    if !s.shield.isActive {
      var a := WeaponAStep(m, s, opponent);
      var b := WeaponBStep(m, a.state, opponent);
      var c := SpecialStep(m, b.state, opponent);
      var l := HyperFireStep(m, HyperKeyStep(c.state), opponent);
      WeaponAOwned(m, s, opponent);
      WeaponBOwned(m, a.state, opponent);
      SpecialOwned(m, b.state, opponent);
      HyperOwned(m, c.state, opponent);
      OwnShotsJoin(a.shots, b.shots, Owner(s));
      OwnShotsJoin(a.shots + b.shots, c.shots, Owner(s));
      OwnShotsJoin(a.shots + b.shots + c.shots, l.shots, Owner(s));
    }
  }

  lemma SpecialOwned(m: Math, s: PlayerState, opponent: Point)
    ensures FiredBy(SpecialStep(m, s, opponent), s)
  {
    if s.keys.special && s.keys.weaponB && s.guns.shootCooldown <= 0 {
      if s.vitals.hyperGauge >= SPECIAL_SPREAD_COST {
        var paid := s.(vitals := s.vitals.(hyperGauge := s.vitals.hyperGauge - SPECIAL_SPREAD_COST),
                       guns := s.guns.(isSpecialSpreadActive := true));
        var t := StartBurst(m, paid, opponent);
        var a1 := BurstAngle(t.guns, t.guns.burstCount);
        var a2 := t.guns.burstBaseAngle + ((t.guns.burstCount - 2) as real * (PI / 8.0) + PI / 16.0);
        NewProjectileOwned(m, t, SPECIAL_B, a1);
        NewProjectileOwned(m, AfterShot(t), SPECIAL_B, a2);
      } else {
        CreateOwned(m, s, WEAPON_B, AimAngle(m, s, opponent));
      }
    }
  }

  lemma MoveSide(m: Math, arena: Arena, s: PlayerState)
    requires Lawful(m)
    ensures MoveRule(m, arena, s).isPlayer1 == s.isPlayer1
  {
    var d := Direction(m, s.keys);
    var hasInput := HasInput(s.keys);
    var a := DashControl(OverheatStop(s), d, hasInput);
    var b := if a.dash.isDashing then DashSteer(m, a, d, hasInput) else a;
    assert b.isPlayer1 == s.isPlayer1;
  }

  /** The steps before the weapons keep the player's side; their shots are the burst's. */
  lemma PreWeaponsOwned(m: Math, arena: Arena, s: PlayerState, opponent: Point, keys: Intent)
    requires Lawful(m)
    ensures FiredBy(PreWeapons(m, arena, s, opponent, keys), s)
  {
    var s1 := Face(m, s.(keys := keys), opponent);
    MoveSide(m, arena, s1);
    var mv := MoveRule(m, arena, s1);
    var s2 := HeatFromMotion(m, mv);
    var s3 := TickCooldowns(s2.(dash := s2.dash.(rings := AgeRings(s2.dash.rings))));
    assert s3.isPlayer1 == s.isPlayer1;
    BurstTickOwned(m, s3);
  }

  /** Two volleys of one owner's shots, one after the other, are that owner's shots. */
  lemma OwnShotsJoin(a: seq<ProjectileState>, b: seq<ProjectileState>, owner: int)
    requires OwnShots(a, owner) && OwnShots(b, owner)
    ensures OwnShots(a + b, owner)
  {
    forall i | 0 <= i < |a + b|
      ensures (a + b)[i].owner == owner && WellFormed((a + b)[i])
    {
      if i >= |a| {
        assert (a + b)[i] == b[i - |a|];
      }
    }
  }

  /** Every projectile a player fires in a frame is its own and well formed, and the player stays on its side. */
  lemma TickOwned(m: Math, arena: Arena, s: PlayerState, opponent: Point, keys: Intent)
    requires Lawful(m)
    ensures FiredBy(Tick(m, arena, s, opponent, keys), s)
  {
    var pre := PreWeapons(m, arena, s, opponent, keys);
    PreWeaponsOwned(m, arena, s, opponent, keys);
    WeaponsOwned(m, pre.state, opponent);
    var w := HandleWeapons(m, pre.state, opponent);
    OwnShotsJoin(pre.shots, w.shots, Owner(s));
  }

  // ---------------------------------------------------------------- the frame keeps the world well formed

  /** The projectile loop keeps only live projectiles, each the flight of an old one, and no more than it was given. */
  lemma {:induction false} SurvivorsSound(m: Math, ps: seq<ProjectileState>, a: Point, b: Point)
    ensures var r := Survivors(m, ps, a, b);
            |r| <= |ps| && forall q :: q in r ==> !q.isDead && exists i :: 0 <= i < |ps| && q == UpdateRule(m, ps[i], a, b)
  {
    if |ps| > 0 {
      var init := ps[..|ps| - 1];
      SurvivorsSound(m, init, a, b);
      var rest := Survivors(m, init, a, b);
      var last := UpdateRule(m, ps[|ps| - 1], a, b);
      var r := Survivors(m, ps, a, b);
      assert r == rest + (if last.isDead then [] else [last]);
      forall q | q in r
        ensures !q.isDead && exists i :: 0 <= i < |ps| && q == UpdateRule(m, ps[i], a, b)
      {
        if q in rest {
          var i :| 0 <= i < |init| && q == UpdateRule(m, init[i], a, b);
          assert ps[i] == init[i];
        } else {
          assert q == UpdateRule(m, ps[|ps| - 1], a, b);
        }
      }
    }
  }

  /** The projectile loop drops no projectile that is still alive after its flight. */
  lemma {:induction false} SurvivorsComplete(m: Math, ps: seq<ProjectileState>, a: Point, b: Point)
    ensures forall i :: 0 <= i < |ps| && !UpdateRule(m, ps[i], a, b).isDead ==> UpdateRule(m, ps[i], a, b) in Survivors(m, ps, a, b)
  {
    if |ps| > 0 {
      var init := ps[..|ps| - 1];
      SurvivorsComplete(m, init, a, b);
      var rest := Survivors(m, init, a, b);
      var last := UpdateRule(m, ps[|ps| - 1], a, b);
      var r := Survivors(m, ps, a, b);
      assert r == rest + (if last.isDead then [] else [last]);
      forall i | 0 <= i < |ps| && !UpdateRule(m, ps[i], a, b).isDead
        ensures UpdateRule(m, ps[i], a, b) in r
      {
        if i < |init| {
          assert ps[i] == init[i];
          assert UpdateRule(m, init[i], a, b) in rest;
        }
      }
    }
  }

  /** The flight keeps a projectile well formed. */
  lemma SurvivorsWellFormed(m: Math, ps: seq<ProjectileState>, a: Point, b: Point)
    requires forall i :: 0 <= i < |ps| ==> WellFormed(ps[i])
    ensures forall q :: q in Survivors(m, ps, a, b) ==> WellFormed(q)
  {
    SurvivorsSound(m, ps, a, b);
    forall q | q in Survivors(m, ps, a, b)
      ensures WellFormed(q)
    {
      var i :| 0 <= i < |ps| && q == UpdateRule(m, ps[i], a, b);
      UpdateSpec(m, ps[i], a, b);
    }
  }

  /** handle_collisions leaves each player on its side. */
  lemma {:induction false} ResolveAllSides(m: Math, p1: PlayerState, p2: PlayerState, ps: seq<ProjectileState>)
    ensures var r := ResolveAll(m, p1, p2, ps);
            r.p1.isPlayer1 == p1.isPlayer1 && r.p2.isPlayer1 == p2.isPlayer1
  {
    if |ps| > 0 {
      ResolveAllSides(m, p1, p2, ps[..|ps| - 1]);
    }
  }

  /** The collisions keep the world well formed: a kept projectile is an old one, perhaps reflected by a player. */
  lemma CollideOk(m: Math, w: World)
    requires WorldOk(w)
    ensures WorldOk(Collide(m, w))
  {
    var ps := w.projectiles;
    ResolveAllSpec(m, w.p1, w.p2, ps);
    ResolveAllInv(m, w.p1, w.p2, ps);
    ResolveAllSides(m, w.p1, w.p2, ps);
    var r := ResolveAll(m, w.p1, w.p2, ps);
    forall j | 0 <= j < |r.projectiles|
      ensures WellFormed(r.projectiles[j])
    {
      var q := r.projectiles[j];
      assert KeptFrom(q, ps);
      var i :| 0 <= i < |ps| && (q == ps[i] || q == ReflectRule(ps[i], 0) || q == ReflectRule(ps[i], 1));
      assert WellFormed(ps[i]);
    }
  }

  /** A world whose projectiles are replaced by the survivors of their flight stays well formed. */
  lemma FlightOk(m: Math, w: World)
    requires WorldOk(w)
    ensures WorldOk(Flown(m, w))
  {
    SurvivorsWellFormed(m, w.projectiles, Pos(w.p1), Pos(w.p2));
    var r := Survivors(m, w.projectiles, Pos(w.p1), Pos(w.p2));
    forall j | 0 <= j < |r|
      ensures WellFormed(r[j])
    {
      assert r[j] in r;
    }
  }

  lemma SettleOk(m: Math, w: World)
    requires WorldOk(w)
    ensures WorldOk(Settle(m, w))
  {
    FlightOk(m, w);
    CollideOk(m, Flown(m, w));
  }

  /** A player's frame, with its shots added to a well-formed list, keeps that list well formed. */
  lemma ShotsJoin(ps: seq<ProjectileState>, shots: seq<ProjectileState>, owner: int)
    requires forall i :: 0 <= i < |ps| ==> WellFormed(ps[i])
    requires OwnShots(shots, owner)
    ensures forall i :: 0 <= i < |ps + shots| ==> WellFormed((ps + shots)[i])
  {
    forall i | 0 <= i < |ps + shots|
      ensures WellFormed((ps + shots)[i])
    {
      if i >= |ps| {
        assert (ps + shots)[i] == shots[i - |ps|];
      }
    }
  }

  lemma MovePlayer1Ok(m: Math, arena: Arena, w: World, keys: Intent)
    requires Lawful(m) && WorldOk(w)
    ensures WorldOk(MovePlayer1(m, arena, w, keys))
  {
    TickPreservesInv(m, arena, w.p1, Pos(w.p2), keys);
    TickOwned(m, arena, w.p1, Pos(w.p2), keys);
    ShotsJoin(w.projectiles, Tick(m, arena, w.p1, Pos(w.p2), keys).shots, Owner(w.p1));
  }

  lemma MovePlayer2Ok(m: Math, arena: Arena, w: World, keys: Intent)
    requires Lawful(m) && WorldOk(w)
    ensures WorldOk(MovePlayer2(m, arena, w, keys))
  {
    TickPreservesInv(m, arena, w.p2, Pos(w.p1), keys);
    TickOwned(m, arena, w.p2, Pos(w.p1), keys);
    ShotsJoin(w.projectiles, Tick(m, arena, w.p2, Pos(w.p1), keys).shots, Owner(w.p2));
  }

  lemma AutoTestFightersOk(m: Math, arena: Arena, w: World, r1: AiDraws, r2: AiDraws)
    requires Lawful(m) && WorldOk(w)
    ensures WorldOk(AutoTestFighters(m, arena, w, r1, r2))
  {
    var c1 := AutoTestControl(m, w.p1, Pos(w.p2), w.projectiles, w.ai1.(timer := w.ai1.timer + 1), AI_MOVE_INTERVAL, r1);
    var c2 := AutoTestControl(m, w.p2, Pos(w.p1), w.projectiles, w.ai2.(timer := w.ai2.timer + 1), AI_MOVE_INTERVAL, r2);
    var w1 := MovePlayer1(m, arena, w.(ai1 := c1.1, ai2 := c2.1), c1.0);
    MovePlayer1Ok(m, arena, w.(ai1 := c1.1, ai2 := c2.1), c1.0);
    MovePlayer2Ok(m, arena, w1, c2.0);
  }

  lemma VersusFightersOk(m: Math, arena: Arena, w: World, held: Intent)
    requires Lawful(m) && WorldOk(w)
    ensures WorldOk(VersusFighters(m, arena, w, held))
  {
    var w1 := MovePlayer1(m, arena, w, held);
    MovePlayer1Ok(m, arena, w, held);
    if w.state == GAME {
      MovePlayer2Ok(m, arena, w1, SimpleAiControl(m, w1.p1, w1.p2, w1.currentTime));
    }
  }

  /**
   * Every frame keeps the world well formed: both players keep their
   * invariant and their sides, and every projectile in the list belongs to
   * one of them and does no negative damage.
   */
  lemma FrameOk(m: Math, arena: Arena, w: World, held: Intent, r1: AiDraws, r2: AiDraws)
    requires Lawful(m) && WorldOk(w)
    ensures WorldOk(Frame(m, arena, w, held, r1, r2))
  {
    if w.state == AUTO_TEST {
      AutoTestFrameOk(m, arena, AutoTestBegin(arena, w), r1, r2);
    } else if InPlay(w.state) {
      VersusFightersOk(m, arena, Begin(arena, w), held);
      SettleOk(m, VersusFighters(m, arena, Begin(arena, w), held));
    }
  }

  lemma AutoTestFrameOk(m: Math, arena: Arena, w: World, r1: AiDraws, r2: AiDraws)
    requires Lawful(m) && WorldOk(w)
    ensures WorldOk(AutoTestFrame(m, arena, w, r1, r2))
  {
    if w.testDuration.Frames? && w.testTimer >= w.testDuration.n {
      assert AutoTestFrame(m, arena, w, r1, r2) == w.(state := TITLE);
    } else if w.testDuration.UntilKnockout? && KnockedOut(w) {
      assert AutoTestFrame(m, arena, w, r1, r2) == Decide(w);
    } else {
      var f := AutoTestFighters(m, arena, w, r1, r2);
      AutoTestFightersOk(m, arena, w, r1, r2);
      SettleOk(m, f);
      assert AutoTestFrame(m, arena, w, r1, r2) == Settle(m, f);
    }
  }

  /** The world at start-up is well formed, and nobody is down in it. */
  lemma OpeningOk()
    ensures WorldOk(Opening()) && !KnockedOut(Opening())
  {
    InitialInv(ARENA_CENTER_X - 100.0, ARENA_CENTER_Y, true);
    InitialInv(ARENA_CENTER_X + 100.0, ARENA_CENTER_Y, false);
  }

  /**
   * reset_players: both players are back at full health with no heat, an
   * empty gauge and hyper off, 100 to either side of the centre; the list is
   * empty, the AI walks are reset, and the world stays well formed. The
   * shield, the dash, the guns and the overheat flag of each player are not
   * reset.
   */
  lemma ResetMatchOk(w: World)
    requires WorldOk(w)
    ensures var r := ResetMatch(w);
            WorldOk(r) && r.projectiles == [] &&
            r.p1.vitals.health == MAX_HEALTH && r.p1.vitals.heat == 0.0 && r.p1.vitals.hyperGauge == 0.0 &&
            r.p2.vitals.health == MAX_HEALTH && r.p2.vitals.heat == 0.0 && r.p2.vitals.hyperGauge == 0.0 &&
            !r.p1.hyper.isActive && !r.p2.hyper.isActive &&
            r.p1.body.x == ARENA_CENTER_X - 100.0 && r.p2.body.x == ARENA_CENTER_X + 100.0 &&
            r.p1.body.y == ARENA_CENTER_Y && r.p2.body.y == ARENA_CENTER_Y &&
            r.ai1 == AiMemory(0, STILL) && r.ai2 == AiMemory(0, STILL) &&
            r.p1.shield == w.p1.shield && r.p1.dash == w.p1.dash && r.p1.guns == w.p1.guns &&
            r.p2.shield == w.p2.shield && r.p2.dash == w.p2.dash && r.p2.guns == w.p2.guns &&
            r.p1.vitals.isOverheated == w.p1.vitals.isOverheated && r.p2.vitals.isOverheated == w.p2.vitals.isOverheated
  {
  }
}
