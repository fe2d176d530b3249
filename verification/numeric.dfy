/**
 * Real-number support shared by the model: the functions of Python's `math`
 * module that the game calls, Python's floor-modulo on floats, and small
 * facts about square roots.
 *
 * sqrt, cos, sin and atan2 cannot be computed on reals, so they are supplied
 * by the caller as the fields of a `Math` value. `Lawful` states the only
 * laws the proofs rely on; nothing else about the functions is assumed.
 */
module Numeric {
  /** Python's math.pi (the double nearest to pi, written out exactly). */
  const PI: real := 3.141592653589793

  datatype Point = Point(x: real, y: real)

  /** The functions of Python's math module the game calls; atan2 takes (y, x) as in Python. */
  datatype Math = Math(sqrt: real -> real, cos: real -> real, sin: real -> real, atan2: (real, real) -> real)

  /**
   * sqrt is the non-negative square root; cosine and sine of any angle are
   * the coordinates of a unit vector; and atan2 gives the heading of a
   * non-zero vector: its cosine and sine, scaled by the vector's length,
   * give back the vector's components.
   */
  ghost predicate Lawful(m: Math) {
    && (forall v :: 0.0 <= v ==> 0.0 <= m.sqrt(v) && m.sqrt(v) * m.sqrt(v) == v)
    && (forall a :: m.cos(a) * m.cos(a) + m.sin(a) * m.sin(a) == 1.0)
    && (forall y, x :: 0.0 < x * x + y * y ==>
          m.cos(m.atan2(y, x)) * m.sqrt(x * x + y * y) == x &&
          m.sin(m.atan2(y, x)) * m.sqrt(x * x + y * y) == y)
  }

  /** The cosine and sine of an angle are the coordinates of a unit vector. */
  lemma UnitHeading(m: Math, a: real)
    requires Lawful(m)
    ensures m.cos(a) * m.cos(a) + m.sin(a) * m.sin(a) == 1.0
  {
  }

  /** Python's min on two numbers (the first when they are equal). */
  function Min(a: real, b: real): (r: real)
    ensures r <= a && r <= b && (r == a || r == b)
  {
    if a <= b then a else b
  }

  /** Python's max on two numbers. */
  function Max(a: real, b: real): (r: real)
    ensures a <= r && b <= r && (r == a || r == b)
  {
    if a >= b then a else b
  }

  /** Squared Euclidean distance between (x1, y1) and (x2, y2). */
  function DistSq(x1: real, y1: real, x2: real, y2: real): (r: real)
    ensures 0.0 <= r
  {
    (x1 - x2) * (x1 - x2) + (y1 - y2) * (y1 - y2)
  }

  /** math.hypot-style distance, through the supplied square root. */
  function Dist(m: Math, x1: real, y1: real, x2: real, y2: real): real {
    m.sqrt(DistSq(x1, y1, x2, y2))
  }

  /** A product of non-negative numbers is non-negative. */
  lemma MulNonneg(a: real, b: real)
    requires 0.0 <= a && 0.0 <= b
    ensures 0.0 <= a * b
  {
  }

  /** A product of positive numbers is positive. */
  lemma MulPos(a: real, b: real)
    requires 0.0 < a && 0.0 < b
    ensures 0.0 < a * b
  {
  }

  /** A square is non-negative. */
  lemma SquareNonneg(a: real)
    ensures 0.0 <= a * a
  {
    if a < 0.0 {
      MulNonneg(-a, -a);
    }
  }

  /** Squaring is strictly increasing on non-negative numbers. */
  lemma SquareStrictMono(a: real, b: real)
    requires 0.0 <= a < b
    ensures a * a < b * b
  {
    var d := b - a;
    MulPos(d, b);
    MulNonneg(d, a);
    assert d * b + d * a == b * b - a * a;
  }

  /** A comparison of a square root with a positive bound is a comparison of squares. */
  lemma SqrtBelow(m: Math, v: real, r: real)
    requires Lawful(m) && 0.0 <= v && 0.0 < r
    ensures m.sqrt(v) < r <==> v < r * r
  {
    var s := m.sqrt(v);
    assert 0.0 <= s && s * s == v;
    if s < r {
      SquareStrictMono(s, r);
    } else if r < s {
      SquareStrictMono(r, s);
    }
  }

  /** The square root of a square of a non-negative number is that number. */
  lemma SqrtOfSquare(m: Math, r: real)
    requires Lawful(m) && 0.0 <= r
    ensures m.sqrt(r * r) == r
  {
    var s := m.sqrt(r * r);
    assert 0.0 <= s && s * s == r * r;
    if s < r {
      SquareStrictMono(s, r);
    } else if r < s {
      SquareStrictMono(r, s);
    }
  }

  /** The square root of a positive number is positive. */
  lemma SqrtPositive(m: Math, v: real)
    requires Lawful(m) && 0.0 < v
    ensures 0.0 < m.sqrt(v)
  {
    var s := m.sqrt(v);
    assert 0.0 <= s && s * s == v;
  }

  /**
   * Python's `x % d` on floats for a positive divisor: the result has the
   * divisor's sign (floor division), unlike Dafny's Euclidean `%` on ints.
   */
  function FMod(x: real, d: real): (r: real)
    requires 0.0 < d
    ensures 0.0 <= r < d
    ensures ((x - r) / d).Floor as real == (x - r) / d
  {
    var q := (x / d).Floor as real;
    FloorDivBounds(x, d);
    DivCancel(q, d);
    x - q * d
  }

  /** Shifting by a whole number of divisors does not change the floor-modulo. */
  lemma FModShift(x: real, d: real, n: int)
    requires 0.0 < d
    ensures FMod(x + n as real * d, d) == FMod(x, d)
  {
    var y := x + n as real * d;
    var t := x / d;
    DivMul(x, d);
    var u := t + n as real;
    assert u * d == t * d + n as real * d;
    DivCancel(u, d);
    assert y / d == u;
    var k := t.Floor;
    assert u.Floor == k + n;
    assert (k + n) as real * d == k as real * d + n as real * d;
  }

  /** (q * d) / d == q for a non-zero d. */
  lemma DivCancel(q: real, d: real)
    requires d != 0.0
    ensures (q * d) / d == q
  {
  }

  /** (x / d) * d == x for a non-zero d. */
  lemma DivMul(x: real, d: real)
    requires d != 0.0
    ensures (x / d) * d == x
  {
  }

  /** floor(x / d) * d lies within one divisor below x. */
  lemma FloorDivBounds(x: real, d: real)
    requires 0.0 < d
    ensures (x / d).Floor as real * d <= x < (x / d).Floor as real * d + d
  {
    var t := x / d;
    DivMul(x, d);
    ScaleBetween(t.Floor as real, t, d, x);
  }

  /** q <= t < q + 1 scales by a positive d to q d <= t d < q d + d. */
  lemma ScaleBetween(q: real, t: real, d: real, x: real)
    requires q <= t < q + 1.0 && 0.0 < d && t * d == x
    ensures q * d <= x < q * d + d
  {
    MulLe(q, t, d);
    MulLt(t, q + 1.0, d);
    calc {
      q * d;
    <=
      t * d;
    ==
      x;
    }
    calc {
      x;
    ==
      t * d;
    <
      (q + 1.0) * d;
    ==
      q * d + d;
    }
  }

  /** Multiplying by a non-negative number keeps a non-strict order. */
  lemma MulLe(a: real, b: real, d: real)
    requires a <= b && 0.0 <= d
    ensures a * d <= b * d
  {
    var e := b - a;
    MulNonneg(e, d);
    assert e * d == b * d - a * d;
  }

  /** Multiplying by a positive number keeps a strict order. */
  lemma MulLt(a: real, b: real, d: real)
    requires a < b && 0.0 < d
    ensures a * d < b * d
  {
    var e := b - a;
    MulPos(e, d);
    assert e * d == b * d - a * d;
  }
}
