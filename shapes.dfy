/** The three curves the generator samples, and the per-variant hooks of the
    shape class: the initial range, the range clamp, the curve equation, the
    rotation and the translation.

    The base class of the source leaves the clamp, the rotation and the
    translation as no-ops; the line overrides only the equation, the circle
    the equation, the translation and the clamp, and the ellipse all four.
    Here the variant is a tag of `Curve` and each hook is one function that
    dispatches on it. */
module Shapes {

  /** The floating-point library the curves are evaluated with.  Its square
      root, sine and cosine are left uninterpreted; `divByZero(n)` stands for
      the value a floating-point division of `n` by zero produces (an
      infinity or NaN, which no real number is). */
  datatype MathLib = MathLib(
    sqrt: real -> real,
    sin: real -> real,
    cos: real -> real,
    divByZero: real -> real)

  /** A square root that is exact on the non-negative reals. */
  ghost predicate ExactSqrt(math: MathLib)
  {
    forall v: real :: 0.0 <= v ==> 0.0 <= math.sqrt(v) && math.sqrt(v) * math.sqrt(v) == v
  }

  datatype Point = Point(x: real, y: real)

  /** The curve parameters of a shape; they are fixed when the shape is
      built.  The ellipse keeps its rotation as given together with the sine
      and cosine computed from it at construction. */
  datatype Curve =
    | Line(slope: real, intercept: real)
    | Circle(cx: real, cy: real, radius: real)
    | Ellipse(cx: real, cy: real, a: real, b: real, rotation: real, sinr: real, cosr: real)

  /** The range and error every shape starts with. */
  const DefaultRange1: real := -50.0
  const DefaultRange2: real := 50.0
  const DefaultError: real := 1.0

  /** The ellipse with the given parameters, caching the sine and cosine of
      its rotation. */
  function EllipseOf(cx: real, cy: real, a: real, b: real, rotation: real, math: MathLib): (c: Curve)
    ensures c.Ellipse? && c.rotation == rotation
    ensures c.sinr == math.sin(rotation) && c.cosr == math.cos(rotation)
  {
    Ellipse(cx, cy, a, b, rotation, math.sin(rotation), math.cos(rotation))
  }

  /** The caches of an ellipse agree with the library it was built with. */
  ghost predicate CachesAgree(c: Curve, math: MathLib)
  {
    c.Ellipse? ==> c.sinr == math.sin(c.rotation) && c.cosr == math.cos(c.rotation)
  }

  /** Half the width of the natural x-domain of a circle or an ellipse. */
  function Support(c: Curve): real
    requires !c.Line?
  {
    if c.Circle? then c.radius else c.a
  }

  /** The range a freshly built shape samples: the base default for a line,
      the natural x-domain for a circle and an ellipse. */
  function InitialRange(c: Curve): (r: (real, real))
    ensures c.Line? ==> r == (DefaultRange1, DefaultRange2)
    ensures !c.Line? ==> r == (-Support(c), Support(c))
  {
    match c
    case Line(_, _) => (DefaultRange1, DefaultRange2)
    case Circle(_, _, radius) => (-radius, radius)
    case Ellipse(_, _, a, _, _, _, _) => (-a, a)
  }

  /** std::max: the second argument when the first is below it. */
  function Max(x: real, y: real): (m: real)
    ensures x <= m && y <= m && (m == x || m == y)
  {
    if x < y then y else x
  }

  /** std::min: the second argument when it is below the first. */
  function Min(x: real, y: real): (m: real)
    ensures m <= x && m <= y && (m == x || m == y)
  {
    if y < x then y else x
  }

  /** The bounds ValidateRange leaves: unchanged for a line; for a circle or
      an ellipse the lower bound raised to -Support and the upper bound
      lowered to +Support.  The bounds are never swapped. */
  function ValidatedRange(c: Curve, range1: real, range2: real): (v: (real, real))
    ensures c.Line? ==> v == (range1, range2)
    ensures !c.Line? ==> range1 <= v.0 && -Support(c) <= v.0 && (v.0 == range1 || v.0 == -Support(c))
    ensures !c.Line? ==> v.1 <= range2 && v.1 <= Support(c) && (v.1 == range2 || v.1 == Support(c))
  {
    match c
    case Line(_, _) => (range1, range2)
    case Circle(_, _, radius) => (Max(range1, -radius), Min(range2, radius))
    case Ellipse(_, _, a, _, _, _, _) => (Max(range1, -a), Min(range2, a))
  }

  /** Clamping a clamped range again changes nothing. */
  lemma ValidatedRangeIdempotent(c: Curve, range1: real, range2: real)
    ensures var v := ValidatedRange(c, range1, range2);
            ValidatedRange(c, v.0, v.1) == v
  {
  }

  /** The clamped interval holds exactly the points of the requested
      interval that lie in the natural x-domain. */
  lemma ValidatedRangeIsIntersection(c: Curve, range1: real, range2: real, x: real)
    requires !c.Line?
    ensures var v := ValidatedRange(c, range1, range2);
            v.0 <= x <= v.1 <==> range1 <= x <= range2 && -Support(c) <= x <= Support(c)
  {
  }

  /** The clamped bounds are in order exactly when the request was in order
      and meets the natural x-domain; otherwise they come out inverted. */
  lemma ValidatedRangeOrdered(c: Curve, range1: real, range2: real)
    requires !c.Line?
    ensures var v := ValidatedRange(c, range1, range2);
            v.0 <= v.1 <==>
              range1 <= range2 && range1 <= Support(c) && -Support(c) <= range2 && -Support(c) <= Support(c)
  {
  }

  /** On a circle of radius 5 the request (10, 20) is stored as (10, 5). */
  lemma ValidatedRangeMayInvert()
    ensures ValidatedRange(Circle(0.0, 0.0, 5.0), 10.0, 20.0) == (10.0, 5.0)
    ensures ValidatedRange(Circle(0.0, 0.0, 5.0), -100.0, 100.0) == (-5.0, 5.0)
  {
  }

  /** The range a shape starts with is already clamped. */
  lemma InitialRangeIsValidated(c: Curve)
    ensures ValidatedRange(c, InitialRange(c).0, InitialRange(c).1) == InitialRange(c)
  {
  }

  /** The branch of a circle or an ellipse: -1 when the sign draw's noise is
      negative, +1 otherwise. */
  function Sign(noise: real): (s: int)
    ensures s == -1 <==> noise < 0.0
    ensures s == 1 <==> 0.0 <= noise
  {
    if noise < 0.0 then -1 else 1
  }

  /** The quotient n / d as floating point computes it. */
  function Ratio(math: MathLib, n: real, d: real): real
  {
    if d == 0.0 then math.divByZero(n) else n / d
  }

  /** The quantity under the square root in the equation of a circle or an
      ellipse: r^2 - x^2, or b^2 (1 - x^2 / a^2) with the quotient as
      floating point computes it. */
  function Radicand(c: Curve, math: MathLib, x: real): real
    requires !c.Line?
  {
    match c
    case Circle(_, _, radius) => radius * radius - x * x
    case Ellipse(_, _, a, b, _, _, _) => b * b * (1.0 - Ratio(math, x * x, a * a))
  }

  /** Over a point of the circle's x-domain the circle's radicand is not
      negative, and together with x^2 it makes up r^2. */
  lemma CircleRadicand(c: Curve, math: MathLib, x: real)
    requires c.Circle? && -c.radius <= x <= c.radius
    ensures 0.0 <= Radicand(c, math, x)
    ensures Radicand(c, math, x) + x * x == c.radius * c.radius
  {
    var r := c.radius;
    assert 0.0 <= (r - x) * (r + x) == r * r - x * x;
  }

  /** A square stays within the square of a bound on both sides. */
  lemma SquareWithin(x: real, bound: real)
    requires -bound <= x <= bound
    ensures x * x <= bound * bound
  {
    assert 0.0 <= (bound - x) * (bound + x) == bound * bound - x * x;
  }

  /** The square of a positive number is positive. */
  lemma SquarePositive(a: real)
    requires 0.0 < a
    ensures 0.0 < a * a
  {
  }

  /** A quotient of a number by a positive number at least as large is at
      most one. */
  lemma QuotientAtMostOne(n: real, d: real)
    requires 0.0 < d && n <= d
    ensures n / d <= 1.0
  {
    assert n / d * d == n;
  }

  /** QuotientAtMostOne for every quotient the library computes. */
  lemma RatiosAtMostOne(math: MathLib)
    ensures forall n: real, d: real :: 0.0 < d && n <= d ==> Ratio(math, n, d) <= 1.0
  {
    forall n: real, d: real | 0.0 < d && n <= d
      ensures Ratio(math, n, d) <= 1.0
    {
      QuotientAtMostOne(n, d);
    }
  }

  /** Over the x-domain [-a, a], x^2 / a^2 is at most one. */
  lemma SquareQuotientAtMostOne(math: MathLib, x: real, a: real)
    requires 0.0 < a && -a <= x <= a
    ensures Ratio(math, x * x, a * a) <= 1.0
  {
    SquarePositive(a);
    SquareWithin(x, a);
    RatiosAtMostOne(math);
  }

  /** b^2 (1 - x^2 / a^2) multiplied by a^2 is b^2 a^2 - b^2 x^2. */
  lemma QuotientRadicand(x: real, a: real, b: real)
    requires 0.0 < a
    ensures b * b * (1.0 - x * x / (a * a)) * (a * a) == b * b * (a * a) - b * b * (x * x)
  {
    assert 0.0 < a * a;
    assert (1.0 - x * x / (a * a)) * (a * a) == a * a - x * x;
  }

  /** Over the x-domain of an ellipse with a positive semi-axis a, the
      radicand is not negative. */
  lemma EllipseRadicandNonNegative(c: Curve, math: MathLib, x: real)
    requires c.Ellipse? && 0.0 < c.a && -c.a <= x <= c.a
    ensures 0.0 <= Radicand(c, math, x)
  {
    SquareQuotientAtMostOne(math, x, c.a);
  }

  /** The ellipse's radicand R satisfies R a^2 = b^2 a^2 - b^2 x^2 when the
      semi-axis a is positive. */
  lemma EllipseRadicandScaled(c: Curve, math: MathLib, x: real)
    requires c.Ellipse? && 0.0 < c.a
    ensures Radicand(c, math, x) * (c.a * c.a) == c.b * c.b * (c.a * c.a) - c.b * c.b * (x * x)
  {
    QuotientRadicand(x, c.a, c.b);
  }

  /** The height of the upper arc of a circle or an ellipse over x, in the
      curve's own centred, unrotated frame: the square root of the
      radicand, which an exact square root squares back to. */
  function Magnitude(c: Curve, math: MathLib, x: real): (m: real)
    requires !c.Line?
    ensures ExactSqrt(math) && 0.0 <= Radicand(c, math, x) ==> 0.0 <= m && m * m == Radicand(c, math, x)
  {
    math.sqrt(Radicand(c, math, x))
  }

  /** The noiseless curve value at x: the line's value, or the arc of a
      circle or an ellipse that the sign draw's noise selects. */
  function Equation(c: Curve, math: MathLib, x: real, signNoise: real): (y: real)
    ensures c.Line? ==> y - c.intercept == c.slope * x
    ensures !c.Line? ==> y == Magnitude(c, math, x) || y == -Magnitude(c, math, x)
  {
    if c.Line? then c.slope * x + c.intercept
    else Sign(signNoise) as real * Magnitude(c, math, x)
  }

  /** A circle or an ellipse takes its lower arc exactly when the sign
      draw's noise is negative, and its upper arc otherwise. */
  lemma EquationArc(c: Curve, math: MathLib, x: real, signNoise: real)
    requires !c.Line?
    ensures signNoise < 0.0 ==> Equation(c, math, x, signNoise) == -Magnitude(c, math, x)
    ensures 0.0 <= signNoise ==> Equation(c, math, x, signNoise) == Magnitude(c, math, x)
  {
  }

  /** RotateXY: an ellipse turns the point about the origin by its rotation;
      the other variants keep the base no-op. */
  function Rotate(c: Curve, p: Point): (q: Point)
    ensures !c.Ellipse? ==> q == p
    ensures c.Ellipse? && c.sinr == 0.0 && c.cosr == 1.0 ==> q == p
  {
    match c
    case Ellipse(_, _, _, _, _, sinr, cosr) =>
      Point(p.x * cosr - p.y * sinr, p.x * sinr + p.y * cosr)
    case _ => p
  }

  /** The turn back by the ellipse's rotation. */
  function Unrotate(c: Curve, p: Point): Point
  {
    match c
    case Ellipse(_, _, _, _, _, sinr, cosr) =>
      Point(p.x * cosr + p.y * sinr, p.y * cosr - p.x * sinr)
    case _ => p
  }

  /** When the cached sine and cosine satisfy sin^2 + cos^2 = 1, turning
      back undoes the rotation. */
  lemma RotateRoundTrip(c: Curve, p: Point)
    requires c.Ellipse? ==> c.sinr * c.sinr + c.cosr * c.cosr == 1.0
    ensures Unrotate(c, Rotate(c, p)) == p
  {
    if c.Ellipse? {
      var s, k := c.sinr, c.cosr;
      var q := Rotate(c, p);
      assert q.x * k + q.y * s == p.x * (k * k + s * s);
      assert q.y * k - q.x * s == p.y * (k * k + s * s);
    }
  }

  /** TranslateXY: a circle or an ellipse shifts the point by its centre;
      the line keeps the base no-op. */
  function Translate(c: Curve, p: Point): (q: Point)
    ensures c.Line? ==> q == p
    ensures !c.Line? ==> q.x - p.x == c.cx && q.y - p.y == c.cy
  {
    match c
    case Line(_, _) => p
    case Circle(cx, cy, _) => Point(p.x + cx, p.y + cy)
    case Ellipse(cx, cy, _, _, _, _, _) => Point(p.x + cx, p.y + cy)
  }

  /** The shift back from the centre. */
  function Untranslate(c: Curve, p: Point): Point
  {
    match c
    case Line(_, _) => p
    case Circle(cx, cy, _) => Point(p.x - cx, p.y - cy)
    case Ellipse(cx, cy, _, _, _, _, _) => Point(p.x - cx, p.y - cy)
  }

  /** Shifting back undoes the translation. */
  lemma TranslateRoundTrip(c: Curve, p: Point)
    ensures Untranslate(c, Translate(c, p)) == p
  {
  }

  /** How many rand() results one sample takes: the x draw and the noise
      draw, and for a circle or an ellipse the sign draw between them. */
  function DrawsPerSample(c: Curve): (n: nat)
    ensures n == 2 <==> c.Line?
    ensures n == 3 <==> !c.Line?
  {
    if c.Line? then 2 else 3
  }
}
