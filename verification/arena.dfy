/**
 * The circular arena (game/arena.py): membership and warning-band tests,
 * clamping of positions onto the arena, and the blinking border.
 */
module ArenaModel {
  import opened Numeric
  import opened Constants

  const BORDER_ALPHA_MIN: int := 100
  const BORDER_ALPHA_MAX: int := 255

  /**
   * One frame of the border blink: the alpha moves by `speed` in the current
   * direction and bounces off 100 and 255. Whatever the inputs, the alpha
   * lands inside [100, 255]; the direction points up after touching the
   * floor and down after touching the ceiling.
   */
  function PulseStep(alpha: int, direction: int, speed: int): (r: (int, int))
    ensures BORDER_ALPHA_MIN <= r.0 <= BORDER_ALPHA_MAX
    ensures r.0 == BORDER_ALPHA_MIN ==> r.1 == 1
    ensures r.0 == BORDER_ALPHA_MAX ==> r.1 == -1
    ensures BORDER_ALPHA_MIN < r.0 < BORDER_ALPHA_MAX ==> r == (alpha + direction * speed, direction)
    ensures alpha + direction * speed <= BORDER_ALPHA_MIN ==> r == (BORDER_ALPHA_MIN, 1)
    ensures alpha + direction * speed >= BORDER_ALPHA_MAX ==> r == (BORDER_ALPHA_MAX, -1)
    ensures BORDER_ALPHA_MIN < alpha + direction * speed < BORDER_ALPHA_MAX ==> r == (alpha + direction * speed, direction)
  {
    var a := alpha + direction * speed;
    if a <= BORDER_ALPHA_MIN then (BORDER_ALPHA_MIN, 1)
    else if a >= BORDER_ALPHA_MAX then (BORDER_ALPHA_MAX, -1)
    else (a, direction)
  }

  class Arena {
    const radius: real := ARENA_RADIUS
    const warningRadius: real := ARENA_WARNING_RADIUS
    const centerX: real := ARENA_CENTER_X
    const centerY: real := ARENA_CENTER_Y
    const borderAlphaSpeed: int := 5
    var borderAlpha: int
    var borderAlphaDirection: int

    /** The blink stays within its band and always moves one way or the other. */
    ghost predicate Valid()
      reads this
    {
      BORDER_ALPHA_MIN <= borderAlpha <= BORDER_ALPHA_MAX &&
      (borderAlphaDirection == 1 || borderAlphaDirection == -1)
    }

    constructor ()
      ensures Valid()
      ensures borderAlpha == BORDER_ALPHA_MAX && borderAlphaDirection == -1
    {
      borderAlpha := BORDER_ALPHA_MAX;
      borderAlphaDirection := -1;
    }

    /** Advances the border blink by one frame. */
    method Update()
      requires Valid()
      modifies this
      ensures Valid()
      ensures (borderAlpha, borderAlphaDirection) == PulseStep(old(borderAlpha), old(borderAlphaDirection), borderAlphaSpeed)
    {
      borderAlpha := borderAlpha + borderAlphaDirection * borderAlphaSpeed;
      if borderAlpha <= BORDER_ALPHA_MIN {
        borderAlpha := BORDER_ALPHA_MIN;
        borderAlphaDirection := 1;
      } else if borderAlpha >= BORDER_ALPHA_MAX {
        borderAlpha := BORDER_ALPHA_MAX;
        borderAlphaDirection := -1;
      }
    }

    /** Strictly inside the arena circle. */
    function IsInside(m: Math, x: real, y: real): bool {
      Dist(m, x, y, centerX, centerY) < radius
    }

    /** In the warning band: at least the warning radius from the centre, but still inside. */
    function IsNearBorder(m: Math, x: real, y: real): bool {
      var distance := Dist(m, x, y, centerX, centerY);
      warningRadius <= distance < radius
    }

    /**
     * A point inside the arena is returned unchanged; a point on or beyond
     * the edge is pulled back along its ray from the centre to one unit
     * inside the edge.
     */
    function ConstrainPosition(m: Math, x: real, y: real): Point {
      var dx := x - centerX;
      var dy := y - centerY;
      var distance := m.sqrt(dx * dx + dy * dy);
      if distance >= radius then
        var angle := m.atan2(dy, dx);
        Point(centerX + m.cos(angle) * (radius - 1.0), centerY + m.sin(angle) * (radius - 1.0))
      else
        Point(x, y)
    }

    /** Being inside is a comparison of the squared distance with the squared radius. */
    lemma InsideIffSquared(m: Math, x: real, y: real)
      requires Lawful(m)
      ensures IsInside(m, x, y) <==> DistSq(x, y, centerX, centerY) < radius * radius
    {
      SqrtBelow(m, DistSq(x, y, centerX, centerY), radius);
    }

    /** The warning band is the part of the arena at least the warning radius from the centre. */
    lemma NearBorderBand(m: Math, x: real, y: real)
      requires Lawful(m)
      ensures IsNearBorder(m, x, y) <==>
                IsInside(m, x, y) && warningRadius * warningRadius <= DistSq(x, y, centerX, centerY)
    {
      SqrtBelow(m, DistSq(x, y, centerX, centerY), warningRadius);
    }

    /**
     * What clamping guarantees: a point inside is untouched; a point outside
     * lands exactly radius - 1 from the centre, on the ray from the centre
     * through the original point; and the result is always inside.
     */
    lemma ConstrainPositionSpec(m: Math, x: real, y: real)
      requires Lawful(m)
      ensures var r := ConstrainPosition(m, x, y);
        && (IsInside(m, x, y) ==> r == Point(x, y))
        && (!IsInside(m, x, y) ==>
              && DistSq(r.x, r.y, centerX, centerY) == (radius - 1.0) * (radius - 1.0)
              && (r.x - centerX) * Dist(m, x, y, centerX, centerY) == (radius - 1.0) * (x - centerX)
              && (r.y - centerY) * Dist(m, x, y, centerX, centerY) == (radius - 1.0) * (y - centerY))
        && IsInside(m, r.x, r.y)
    {
      if !IsInside(m, x, y) {
        ClampOutside(m, x, y);
      }
    }

    /** The outside case of clamping, on the offset from the centre. */
    lemma ClampOutside(m: Math, x: real, y: real)
      requires Lawful(m)
      requires !IsInside(m, x, y)
      ensures var r := ConstrainPosition(m, x, y);
        && DistSq(r.x, r.y, centerX, centerY) == (radius - 1.0) * (radius - 1.0)
        && (r.x - centerX) * Dist(m, x, y, centerX, centerY) == (radius - 1.0) * (x - centerX)
        && (r.y - centerY) * Dist(m, x, y, centerX, centerY) == (radius - 1.0) * (y - centerY)
        && IsInside(m, r.x, r.y)
    {
      var dx, dy := x - centerX, y - centerY;
      assert DistSq(x, y, centerX, centerY) == dx * dx + dy * dy;
      ClampOutsideResult(m, x, y);
      RimPoint(m, dx, dy);
    }

    /** Beyond the edge, clamping picks the rim point along the heading of the offset. */
    lemma ClampOutsideResult(m: Math, x: real, y: real)
      requires m.sqrt((x - centerX) * (x - centerX) + (y - centerY) * (y - centerY)) >= radius
      ensures var a := m.atan2(y - centerY, x - centerX);
        ConstrainPosition(m, x, y) == Point(centerX + m.cos(a) * (radius - 1.0), centerY + m.sin(a) * (radius - 1.0))
    {
    }

    /** The rim point along the heading of an offset (dx, dy) at least `radius` long. */
    lemma RimPoint(m: Math, dx: real, dy: real)
      requires Lawful(m)
      requires m.sqrt(dx * dx + dy * dy) >= radius
      ensures var a, k := m.atan2(dy, dx), radius - 1.0;
        && (m.cos(a) * k) * (m.cos(a) * k) + (m.sin(a) * k) * (m.sin(a) * k) == k * k
        && (m.cos(a) * k) * m.sqrt(dx * dx + dy * dy) == k * dx
        && (m.sin(a) * k) * m.sqrt(dx * dx + dy * dy) == k * dy
        && m.sqrt(k * k) < radius
    {
      var d := m.sqrt(dx * dx + dy * dy);
      var k := radius - 1.0;
      MulPos(d, d);
      var c, s := m.cos(m.atan2(dy, dx)), m.sin(m.atan2(dy, dx));
      assert c * d == dx && s * d == dy;
      UnitHeading(m, m.atan2(dy, dx));
      RimArithmetic(c, s, d, dx, dy, k);
      SqrtOfSquare(m, k);
    }

    /**
     * The arithmetic behind clamping: scaling the unit heading (c, s) of an
     * offset (dx, dy) of length d by k gives a point k from the origin on
     * the same ray.
     */
    static lemma RimArithmetic(c: real, s: real, d: real, dx: real, dy: real, k: real)
      requires c * c + s * s == 1.0
      requires c * d == dx && s * d == dy
      ensures (c * k) * (c * k) + (s * k) * (s * k) == k * k
      ensures (c * k) * d == k * dx && (s * k) * d == k * dy
    {
      assert (c * k) * (c * k) + (s * k) * (s * k) == (c * c + s * s) * (k * k);
    }

    /** Clamping twice is clamping once. */
    lemma ConstrainPositionIdempotent(m: Math, x: real, y: real)
      requires Lawful(m)
      ensures var r := ConstrainPosition(m, x, y);
        ConstrainPosition(m, r.x, r.y) == r
    {
      var r := ConstrainPosition(m, x, y);
      ConstrainPositionSpec(m, x, y);
      ConstrainPositionSpec(m, r.x, r.y);
    }
  }
}
