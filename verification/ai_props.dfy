/**
 * What the computer players' rules guarantee: the hit time is the earliest
 * positive root of its quadratic, the threat scan picks the soonest
 * opponent projectile, evasion moves across the projectile's path, and the
 * walking and firing choices stay within what their draws allow. Also the
 * sign error in the intercept quadratic and its correction.
 */
module AiProperties {
  import opened Numeric
  import opened Constants
  import opened Wrappers
  import opened Projectiles
  import opened PlayerRules
  import opened AiRules

  function Disc(q: Quadratic): real {
    q.b * q.b - 4.0 * q.a * q.c
  }

  function Sign(x: real): int {
    if x > 0.0 then 1 else if x < 0.0 then -1 else 0
  }

  // ---------------------------------------------------------------- roots of a quadratic

  /** m.sqrt is a square root at v: non-negative, and its square is v. */
  predicate SqrtAt(m: Math, v: real) {
    0.0 <= m.sqrt(v) && m.sqrt(v) * m.sqrt(v) == v
  }

  lemma LawfulSqrt(m: Math, v: real)
    requires Lawful(m) && 0.0 <= v
    ensures SqrtAt(m, v)
  {
  }

  /** Completing the square: 4a(at^2 + bt + c) = (2at + b)^2 - (b^2 - 4ac). */
  lemma CompleteSquare(q: Quadratic, t: real)
    ensures 4.0 * q.a * Eval(q, t) == (2.0 * q.a * t + q.b) * (2.0 * q.a * t + q.b) - Disc(q)
  {
    var x := 2.0 * q.a * t;
    assert (x + q.b) * (x + q.b) == x * x + 2.0 * x * q.b + q.b * q.b;
    assert x * x == 4.0 * q.a * (q.a * t * t);
    assert 2.0 * x * q.b == 4.0 * q.a * (q.b * t);
    assert 4.0 * q.a * Eval(q, t) == 4.0 * q.a * (q.a * t * t) + 4.0 * q.a * (q.b * t) + 4.0 * q.a * q.c;
  }

  /** A square equals another square of a non-negative number exactly when it is that number or its negation. */
  lemma SquareEq(x: real, e: real)
    requires 0.0 <= e
    ensures x * x == e * e <==> x == e || x == -e
  {
    assert x * x - e * e == (x - e) * (x + e);
    if x != e && x != -e {
      if x - e > 0.0 && x + e > 0.0 { MulPos(x - e, x + e); }
      else if x - e < 0.0 && x + e < 0.0 { MulPos(e - x, -x - e); }
      else if x - e > 0.0 { MulPos(x - e, -x - e); }
      else { MulPos(e - x, x + e); }
    }
  }

  /** Of two non-negative numbers, the one with the smaller square is the smaller. */
  lemma RootBelow(e: real, b: real)
    requires 0.0 <= e && 0.0 <= b && e * e < b * b
    ensures e < b
  {
    if b < e { SquareStrictMono(b, e); }
  }

  /** Multiplying by a positive number is injective. */
  lemma ScaleInjective(u: real, t: real, k: real)
    requires 0.0 < k && k * u == k * t
    ensures u == t
  {
    if u < t { MulLt(u, t, k); } else if t < u { MulLt(t, u, k); }
  }

  /** A quotient by a positive number has the sign of the dividend. */
  lemma QuotientSign(x: real, d: real)
    requires 0.0 < d
    ensures (x / d < 0.0 <==> x < 0.0) && (0.0 < x / d <==> 0.0 < x)
  {
    DivMul(x, d);
    if x / d < 0.0 { MulLt(x / d, 0.0, d); }
    if 0.0 < x / d { MulLt(0.0, x / d, d); }
    if x / d == 0.0 { assert x == 0.0 * d; }
  }

  /**
   * The roots of at^2 + bt + c with a > 0: t is a root exactly when the
   * discriminant is non-negative and 2at is -b minus or plus its square root.
   */
  lemma QuadraticRoots(m: Math, q: Quadratic, t: real)
    requires 0.0 < q.a && (0.0 <= Disc(q) ==> SqrtAt(m, Disc(q)))
    ensures Eval(q, t) == 0.0 <==>
            0.0 <= Disc(q) && (2.0 * q.a * t == -q.b - m.sqrt(Disc(q)) || 2.0 * q.a * t == -q.b + m.sqrt(Disc(q)))
  {
    var x := 2.0 * q.a * t + q.b;
    CompleteSquare(q, t);
    SquareNonneg(x);
    if Disc(q) < 0.0 {
      assert 4.0 * q.a * Eval(q, t) > 0.0;
    } else {
      var e := m.sqrt(Disc(q));
      SquareEq(x, e);
      if Eval(q, t) == 0.0 {
        assert x * x == e * e;
      } else {
        assert 4.0 * q.a * Eval(q, t) != 0.0;
      }
    }
  }

  function SmallRoot(m: Math, q: Quadratic): real
    requires q.a != 0.0
  {
    (-q.b - m.sqrt(Disc(q))) / (2.0 * q.a)
  }

  function LargeRoot(m: Math, q: Quadratic): real
    requires q.a != 0.0
  {
    (-q.b + m.sqrt(Disc(q))) / (2.0 * q.a)
  }

  /** With a > 0 and a non-negative discriminant, the two roots are ordered and are the only ones. */
  lemma TwoRoots(m: Math, q: Quadratic)
    requires 0.0 < q.a && 0.0 <= Disc(q) && SqrtAt(m, Disc(q))
    ensures SmallRoot(m, q) <= LargeRoot(m, q)
    ensures Eval(q, SmallRoot(m, q)) == 0.0 && Eval(q, LargeRoot(m, q)) == 0.0
    ensures forall u :: Eval(q, u) == 0.0 ==> u == SmallRoot(m, q) || u == LargeRoot(m, q)
  {
    var a2 := 2.0 * q.a;
    var e := m.sqrt(Disc(q));
    var t1 := SmallRoot(m, q);
    var t2 := LargeRoot(m, q);
    DivMul(-q.b - e, a2);
    DivMul(-q.b + e, a2);
    assert t1 <= t2 by {
      if t2 < t1 { MulLt(t2, t1, a2); }
    }
    QuadraticRoots(m, q, t1);
    QuadraticRoots(m, q, t2);
    forall u | Eval(q, u) == 0.0
      ensures u == t1 || u == t2
    {
      QuadraticRoots(m, q, u);
      if a2 * u == a2 * t1 { ScaleInjective(u, t1, a2); } else { ScaleInjective(u, t2, a2); }
    }
  }

  /**
   * The hit time of a quadratic with a > 0 is its earliest positive root;
   * there is none exactly when the quadratic has no positive root.
   */
  lemma HitTimeSpec(m: Math, q: Quadratic)
    requires 0.0 < q.a && (0.0 <= Disc(q) ==> SqrtAt(m, Disc(q)))
    ensures HitTime(m, q).Some? ==>
              var t := HitTime(m, q).value;
              0.0 < t && Eval(q, t) == 0.0 && forall u :: 0.0 < u && Eval(q, u) == 0.0 ==> t <= u
    ensures HitTime(m, q).None? ==> forall u :: 0.0 < u ==> Eval(q, u) != 0.0
  {
    if Disc(q) < 0.0 {
      forall u | 0.0 < u ensures Eval(q, u) != 0.0 { QuadraticRoots(m, q, u); }
    } else {
      TwoRoots(m, q);
      assert HitTime(m, q) ==
        if SmallRoot(m, q) > 0.0 then Some(SmallRoot(m, q))
        else if LargeRoot(m, q) > 0.0 then Some(LargeRoot(m, q)) else None;
    }
  }

  // ---------------------------------------------------------------- the sign of the intercept quadratic

  /** v.D: the projectile's velocity against its offset to the player; positive when it closes in. */
  function Closing(m: Math, s: PlayerState, p: ProjectileState): real {
    var v := Velocity(m, p);
    v.x * (s.body.x - p.x) + v.y * (s.body.y - p.y)
  }

  /**
   * How far projectile p is from touching the player after t frames of
   * flight (a negative t runs it backwards), in squared distances: zero
   * exactly at contact.
   */
  function Separation(m: Math, s: PlayerState, p: ProjectileState, t: real): real {
    var v := Velocity(m, p);
    DistSq(p.x + v.x * t, p.y + v.y * t, s.body.x, s.body.y) - Reach(p) * Reach(p)
  }

  /** (wt - d)^2 expanded. */
  lemma ExpandSquare(d: real, w: real, t: real)
    ensures (w * t - d) * (w * t - d) == w * w * (t * t) - 2.0 * w * d * t + d * d
  {
  }

  /**
   * The quadratic as written vanishes when the projectile, run BACKWARDS
   * for t frames, touches the player: its roots are past contacts.
   */
  lemma CodeQuadraticLooksBack(m: Math, s: PlayerState, p: ProjectileState, t: real)
    ensures Eval(CodeQuadratic(m, s, p), t) == Separation(m, s, p, -t)
  {
    TrueQuadraticLooksAhead(m, s, p, -t);
    var q := CodeQuadratic(m, s, p);
    assert Eval(q, t) == Eval(Quadratic(q.a, -q.b, q.c), -t);
  }

  /**
   * A quadratic with a > 0, c > 0 and b > 0 has no positive root: the hit
   * time it yields is none.
   */
  lemma NoPositiveRoot(m: Math, q: Quadratic)
    requires 0.0 < q.a && 0.0 < q.c && 0.0 < q.b && (0.0 <= Disc(q) ==> SqrtAt(m, Disc(q)))
    ensures HitTime(m, q) == None
  {
    if 0.0 <= Disc(q) {
      var e := m.sqrt(Disc(q));
      MulPos(q.a, q.c);
      assert e * e < q.b * q.b;
      RootBelow(e, q.b);
      QuotientSign(-q.b + e, 2.0 * q.a);
      QuotientSign(-q.b - e, 2.0 * q.a);
    }
  }

  /**
   * As written, a projectile that is closing in on the player from outside
   * contact range is never predicted to hit it (both roots of the quadratic
   * lie in the past).
   */
  lemma CodeMissesApproach(m: Math, s: PlayerState, p: ProjectileState)
    requires Lawful(m)
    requires 0.0 < Closing(m, s, p) && Reach(p) * Reach(p) < DistSq(s.body.x, s.body.y, p.x, p.y)
    ensures HitTime(m, CodeQuadratic(m, s, p)) == None
  {
    var q := CodeQuadratic(m, s, p);
    if 0.0 < q.a {
      if 0.0 <= Disc(q) { LawfulSqrt(m, Disc(q)); }
      NoPositiveRoot(m, q);
    }
  }

  /** The intercept quadratic with the sign of b corrected: |D - vt|^2 - reach^2. */
  function TrueQuadratic(m: Math, s: PlayerState, p: ProjectileState): Quadratic {
    var q := CodeQuadratic(m, s, p);
    Quadratic(q.a, -q.b, q.c)
  }

  /** The corrected quadratic vanishes when the projectile, run FORWARD for t frames, touches the player. */
  lemma TrueQuadraticLooksAhead(m: Math, s: PlayerState, p: ProjectileState, t: real)
    ensures Eval(TrueQuadratic(m, s, p), t) == Separation(m, s, p, t)
  {
    var v := Velocity(m, p);
    var dx := s.body.x - p.x;
    var dy := s.body.y - p.y;
    assert p.x + v.x * t - s.body.x == v.x * t - dx && p.y + v.y * t - s.body.y == v.y * t - dy;
    ExpandSquare(dx, v.x, t);
    ExpandSquare(dy, v.y, t);
  }

  /**
   * With the corrected quadratic, the hit time is the first future moment
   * the projectile touches the player: it is in contact then and at no
   * earlier positive time.
   */
  lemma TrueHitIsFirstContact(m: Math, s: PlayerState, p: ProjectileState)
    requires Lawful(m)
    ensures HitTime(m, TrueQuadratic(m, s, p)).Some? ==>
              var t := HitTime(m, TrueQuadratic(m, s, p)).value;
              0.0 < t && Separation(m, s, p, t) == 0.0 && forall u :: 0.0 < u < t ==> Separation(m, s, p, u) != 0.0
  {
    var q := TrueQuadratic(m, s, p);
    if HitTime(m, q).Some? {
      if 0.0 <= Disc(q) { LawfulSqrt(m, Disc(q)); }
      HitTimeSpec(m, q);
      var t := HitTime(m, q).value;
      TrueQuadraticLooksAhead(m, s, p, t);
      forall u | 0.0 < u < t
        ensures Separation(m, s, p, u) != 0.0
      {
        TrueQuadraticLooksAhead(m, s, p, u);
      }
    }
  }

  /**
   * With the corrected quadratic, a moving projectile closing in from
   * outside contact range whose path comes within reach is predicted to hit.
   */
  lemma TrueFindsApproach(m: Math, s: PlayerState, p: ProjectileState)
    requires Lawful(m)
    requires 0.0 < TrueQuadratic(m, s, p).a && 0.0 < Closing(m, s, p) && Reach(p) * Reach(p) < DistSq(s.body.x, s.body.y, p.x, p.y)
    requires 0.0 <= Disc(TrueQuadratic(m, s, p))
    ensures HitTime(m, TrueQuadratic(m, s, p)).Some?
  {
    var q := TrueQuadratic(m, s, p);
    LawfulSqrt(m, Disc(q));
    var e := m.sqrt(Disc(q));
    MulPos(q.a, q.c);
    assert e * e < q.b * q.b;
    RootBelow(e, -q.b);
    QuotientSign(-q.b - e, 2.0 * q.a);
  }

  // ---------------------------------------------------------------- the threat scan

  /**
   * The threat is an opponent projectile of the list hitting within
   * HORIZON, and no opponent projectile of the list hits sooner; there is
   * none exactly when no opponent projectile hits within HORIZON.
   */
  lemma {:induction false} PredictSpec(m: Math, s: PlayerState, ps: seq<ProjectileState>)
    ensures var r := Predict(m, s, ps);
            (r.Some? ==>
               r.value.time < HORIZON &&
               r.value == ThreatAt(m, r.value.proj, r.value.time) &&
               exists i :: 0 <= i < |ps| && ps[i] == r.value.proj && ps[i].owner != Owner(s) &&
                           HitTime(m, CodeQuadratic(m, s, ps[i])) == Some(r.value.time)) &&
            (forall i :: 0 <= i < |ps| && ps[i].owner != Owner(s) &&
                         HitTime(m, CodeQuadratic(m, s, ps[i])).Some? &&
                         HitTime(m, CodeQuadratic(m, s, ps[i])).value < HORIZON ==>
                           r.Some? && r.value.time <= HitTime(m, CodeQuadratic(m, s, ps[i])).value)
  {
    if |ps| > 0 {
      var init := ps[..|ps| - 1];
      var p := ps[|ps| - 1];
      PredictSpec(m, s, init);
      var best := Predict(m, s, init);
      var r := Predict(m, s, ps);
      assert r == Consider(m, s, best, p);
      if r.Some? {
        if r == best {
          var i :| 0 <= i < |init| && init[i] == r.value.proj && init[i].owner != Owner(s) &&
                   HitTime(m, CodeQuadratic(m, s, init[i])) == Some(r.value.time);
          assert ps[i] == init[i];
        } else {
          assert ps[|ps| - 1] == p;
        }
      }
      forall i | 0 <= i < |ps| && ps[i].owner != Owner(s) &&
                 HitTime(m, CodeQuadratic(m, s, ps[i])).Some? &&
                 HitTime(m, CodeQuadratic(m, s, ps[i])).value < HORIZON
        ensures r.Some? && r.value.time <= HitTime(m, CodeQuadratic(m, s, ps[i])).value
      {
        if i < |ps| - 1 {
          assert ps[i] == init[i];
        }
      }
    }
  }

  // ---------------------------------------------------------------- evasion

  /** The evasion heading is the left perpendicular (-sin a, cos a) of the projectile's heading or its opposite. */
  lemma EvasionAxis(m: Math, s: PlayerState, threat: Threat, flip: real)
    ensures var e := EvasionDirection(m, s, threat, flip);
            var a := threat.proj.angle;
            e == Point(-m.sin(a), m.cos(a)) || e == Point(m.sin(a), -m.cos(a))
  {
  }

  /** The evasion heading is a unit vector across the projectile's path. */
  lemma EvasionSpec(m: Math, s: PlayerState, threat: Threat, flip: real)
    requires Lawful(m)
    ensures var e := EvasionDirection(m, s, threat, flip);
            var a := threat.proj.angle;
            e.x * e.x + e.y * e.y == 1.0 && e.x * m.cos(a) + e.y * m.sin(a) == 0.0
  {
    var a := threat.proj.angle;
    UnitHeading(m, a);
    EvasionAxis(m, s, threat, flip);
    var c := m.cos(a);
    var n := m.sin(a);
    assert (-n) * (-n) == n * n && (-c) * (-c) == c * c;
  }

  /**
   * Far from the centre (beyond 70% of the radius) the evasion heading never
   * points away from the centre.
   */
  lemma EvasionTowardCentre(m: Math, s: PlayerState, threat: Threat, flip: real)
    requires Dist(m, s.body.x, s.body.y, ARENA_CENTER_X, ARENA_CENTER_Y) > ARENA_RADIUS * 0.7
    ensures var e := EvasionDirection(m, s, threat, flip);
            0.0 <= (ARENA_CENTER_X - s.body.x) * e.x + (ARENA_CENTER_Y - s.body.y) * e.y
  {
    var a := threat.proj.angle;
    var px := -m.sin(a);
    var py := m.cos(a);
    var ax := ARENA_CENTER_X - s.body.x;
    var ay := ARENA_CENTER_Y - s.body.y;
    var distance := Dist(m, s.body.x, s.body.y, ARENA_CENTER_X, ARENA_CENTER_Y);
    var dot := ax / distance * px + ay / distance * py;
    assert dot * distance == ax * px + ay * py;
    if dot < 0.0 {
      MulLt(dot, 0.0, distance);
      assert ax * (-px) + ay * (-py) == -(ax * px + ay * py);
    } else {
      MulLe(0.0, dot, distance);
    }
  }

  /**
   * Evading always moves (at least one direction key, never two opposite
   * ones), always dashes, fires nothing, and raises the shield only for a
   * hit due within 15 frames.
   */
  lemma EvadeKeysSpec(m: Math, s: PlayerState, threat: Threat, flip: real, shieldRoll: real)
    requires Lawful(m)
    ensures var k := EvadeKeys(m, s, threat, flip, shieldRoll);
            (k.up || k.down || k.left || k.right) && !(k.up && k.down) && !(k.left && k.right) &&
            k.dash && !k.weaponA && !k.weaponB && !k.special && !k.hyper &&
            (k.shield ==> threat.time < 15.0)
  {
    EvasionSpec(m, s, threat, flip);
  }

  // ---------------------------------------------------------------- wandering and firing

  /**
   * The walking direction never holds two opposite keys. Chasing (styles
   * 0-5, opponent beyond 150) heads towards the opponent on each axis and
   * keeping away heads from it; heading for the centre (style 8) heads
   * towards the centre; a compound direction (9-10) always moves.
   */
  lemma MovementStyleSpec(m: Math, s: PlayerState, opponent: Point, d: StyleDraws)
    ensures var mv := DecideMovementStyle(m, s, opponent, d);
            var dx := opponent.x - s.body.x;
            var dy := opponent.y - s.body.y;
            var far := Dist(m, s.body.x, s.body.y, opponent.x, opponent.y) > 150.0;
            !(mv.up && mv.down) && !(mv.left && mv.right) && (mv.dash <==> d.dash < 0.4) &&
            (d.style <= 5 && far ==> Axis(mv.left, mv.right) == Sign(dx) && Axis(mv.up, mv.down) == Sign(dy)) &&
            (d.style <= 5 && !far ==> Axis(mv.left, mv.right) == -Sign(dx) && Axis(mv.up, mv.down) == -Sign(dy)) &&
            (5 < d.style <= 7 && d.clockwise < 0.5 ==> Axis(mv.left, mv.right) == -Sign(dy) && Axis(mv.up, mv.down) == -Sign(dx)) &&
            (5 < d.style <= 7 && 0.5 <= d.clockwise ==> Axis(mv.left, mv.right) == Sign(dy) && Axis(mv.up, mv.down) == Sign(dx)) &&
            (7 < d.style <= 8 ==> Axis(mv.left, mv.right) == Sign(ARENA_CENTER_X - s.body.x) &&
                                  Axis(mv.up, mv.down) == Sign(ARENA_CENTER_Y - s.body.y)) &&
            (8 < d.style ==> mv.up || mv.down || mv.left || mv.right)
  {
  }

  /**
   * Under a predicted hit the controller evades and restarts its walking
   * timer with the evasion keys as the stored direction.
   */
  lemma AutoTestEvades(m: Math, s: PlayerState, opponent: Point, ps: seq<ProjectileState>,
                       mem: AiMemory, interval: int, r: AiDraws)
    requires Lawful(m) && Predict(m, s, ps).Some?
    ensures var (k, next) := AutoTestControl(m, s, opponent, ps, mem, interval, r);
            next.timer == 0 && next.direction == Movement(k.up, k.down, k.left, k.right, true) &&
            (k.up || k.down || k.left || k.right) && k.dash &&
            !k.weaponA && !k.weaponB && !k.special && !k.hyper
  {
    EvadeKeysSpec(m, s, Predict(m, s, ps).value, r.flip, r.evadeShield);
  }

  /**
   * With no predicted hit the controller walks the direction it had stored
   * before this frame; it draws a new one, restarting the timer, exactly
   * when the timer has reached the interval, and otherwise keeps its memory;
   * it goes hyper only with a gauge of at least 100, and raises the shield
   * on the larger chance only with an opponent projectile within 70.
   */
  lemma AutoTestWanders(m: Math, s: PlayerState, opponent: Point, ps: seq<ProjectileState>,
                        mem: AiMemory, interval: int, r: AiDraws)
    requires Predict(m, s, ps).None?
    ensures var (k, next) := AutoTestControl(m, s, opponent, ps, mem, interval, r);
            Movement(k.up, k.down, k.left, k.right, k.dash) == mem.direction &&
            (mem.timer >= interval ==> next == AiMemory(0, DecideMovementStyle(m, s, opponent, r.style))) &&
            (mem.timer < interval ==> next == mem) &&
            (k.hyper ==> s.vitals.hyperGauge >= 100.0) &&
            (k.shield && !Nearby(m, s, ps, 70.0) ==> r.shield < 0.1) &&
            (r.shield < 0.1 ==> k.shield)
  {
  }

  /**
   * simple_ai_control always presses exactly one horizontal and one
   * vertical key, towards a player 1 beyond 150 and away from a nearer
   * one; it never uses the shield or the special, and its second weapon,
   * dash and hyper are used only at close range, hyper only with a gauge
   * of at least 100 and every 180 frames.
   */
  lemma SimpleAiSpec(m: Math, p1: PlayerState, p2: PlayerState, currentTime: int)
    ensures var k := SimpleAiControl(m, p1, p2, currentTime);
            var dx := p1.body.x - p2.body.x;
            var dy := p1.body.y - p2.body.y;
            var far := Dist(m, p2.body.x, p2.body.y, p1.body.x, p1.body.y) > 150.0;
            (k.left != k.right) && (k.up != k.down) && !k.shield && !k.special &&
            (far ==> 0.0 <= Axis(k.left, k.right) as real * dx && 0.0 <= Axis(k.up, k.down) as real * dy) &&
            (!far ==> Axis(k.left, k.right) as real * dx <= 0.0 && Axis(k.up, k.down) as real * dy <= 0.0) &&
            (k.weaponA ==> currentTime % 30 == 0) &&
            (k.weaponB || k.dash || k.hyper ==> !far) &&
            (k.hyper ==> p2.vitals.hyperGauge >= 100.0 && currentTime % 180 == 0)
  {
    var k := SimpleAiControl(m, p1, p2, currentTime);
    if Dist(m, p2.body.x, p2.body.y, p1.body.x, p1.body.y) > 150.0 {
      if k.weaponA { EveryOtherHalfSecond(currentTime); }
    }
  }

  /** A frame number divisible by 60 is divisible by 30. */
  lemma EveryOtherHalfSecond(t: int)
    requires t % 60 == 0
    ensures t % 30 == 0
  {
    assert t == 30 * (2 * (t / 60));
  }
}
