/** What Generate computes: the points a shape yields from the stream of
    rand() results that follows the srand() at the start of the call.

    Each sample takes its draws in a fixed order (x, then for a circle or an
    ellipse the branch sign, then the noise) and builds the point in a
    fixed order (x, equation, plus noise, rotate, translate). */
module Sampling {
  import opened Draws
  import opened Shapes

  /** The state of a shape object: its curve and the range and error it
      currently samples with. */
  datatype Shape = Shape(curve: Curve, range1: real, range2: real, error: real)

  /** The sample whose draws start at stream position k. */
  function Sample(s: Shape, math: MathLib, rand: nat -> Draw, k: nat): (p: Point)
    ensures !s.curve.Ellipse? ==> Untranslate(s.curve, p).x == Scale(rand(k), s.range1, s.range2)
  {
    var x := Scale(rand(k), s.range1, s.range2);
    var y := Equation(s.curve, math, x, Noise(s.error, rand(k + 1)));
    var noisy := y + Noise(s.error, rand(k + DrawsPerSample(s.curve) - 1));
    Translate(s.curve, Rotate(s.curve, Point(x, noisy)))
  }

  /** The first n samples, sample i starting at stream position
      i * DrawsPerSample. */
  function Samples(s: Shape, math: MathLib, rand: nat -> Draw, n: nat): (ps: seq<Point>)
    ensures |ps| == n
  {
    if n == 0 then []
    else Samples(s, math, rand, n - 1) + [Sample(s, math, rand, (n - 1) * DrawsPerSample(s.curve))]
  }

  /** n samples are n points, and point i is the sample whose draws start
      right after those of the i samples before it. */
  lemma {:induction false} SamplesAt(s: Shape, math: MathLib, rand: nat -> Draw, n: nat, i: nat)
    requires i < n
    ensures |Samples(s, math, rand, n)| == n
    ensures Samples(s, math, rand, n)[i] == Sample(s, math, rand, i * DrawsPerSample(s.curve))
  {
    if i < n - 1 {
      SamplesAt(s, math, rand, n - 1, i);
    } else if 0 < i {
      SamplesAt(s, math, rand, n - 1, 0);
    }
  }

  /** A sample reads nothing of the stream beyond its own draws. */
  lemma SampleReadsItsDraws(s: Shape, math: MathLib, rand1: nat -> Draw, rand2: nat -> Draw, k: nat)
    requires forall j :: k <= j < k + DrawsPerSample(s.curve) ==> rand1(j) == rand2(j)
    ensures Sample(s, math, rand1, k) == Sample(s, math, rand2, k)
  {
    assert rand1(k) == rand2(k);
    assert rand1(k + DrawsPerSample(s.curve) - 1) == rand2(k + DrawsPerSample(s.curve) - 1);
    if !s.curve.Line? {
      assert rand1(k + 1) == rand2(k + 1);
    }
  }

  /** n samples read exactly the first n * DrawsPerSample results of the
      stream: two streams that agree on those give the same points. */
  lemma {:induction false} SamplesReadFirstDraws(s: Shape, math: MathLib, rand1: nat -> Draw, rand2: nat -> Draw, n: nat)
    requires forall j: nat :: j < n * DrawsPerSample(s.curve) ==> rand1(j) == rand2(j)
    ensures Samples(s, math, rand1, n) == Samples(s, math, rand2, n)
  {
    if n > 0 {
      var d := DrawsPerSample(s.curve);
      var k := (n - 1) * d;
      assert k + d == n * d;
      SamplesReadFirstDraws(s, math, rand1, rand2, n - 1);
      SampleReadsItsDraws(s, math, rand1, rand2, k);
    }
  }

  /** With a zero error there is no noise, and a circle or an ellipse only
      ever takes its upper arc. */
  lemma ZeroErrorUpperArc(s: Shape, math: MathLib, rand: nat -> Draw, k: nat)
    requires !s.curve.Line? && s.error == 0.0
    ensures var x := Scale(rand(k), s.range1, s.range2);
            Sample(s, math, rand, k) == Translate(s.curve, Rotate(s.curve, Point(x, Magnitude(s.curve, math, x))))
  {
    NoiseBounds(s.error, rand(k + 1));
    NoiseBounds(s.error, rand(k + 2));
  }

  /** The point lies in the sampled range (whichever way round its bounds
      are) and within half the error of the line, above or below; with a
      zero error it lies on the line exactly. */
  ghost predicate NearLine(s: Shape, p: Point)
    requires s.curve.Line?
  {
    var off := p.y - (s.curve.slope * p.x + s.curve.intercept);
    && (s.range1 < s.range2 ==> s.range1 <= p.x < s.range2)
    && (s.range1 == s.range2 ==> p.x == s.range1)
    && (s.range2 < s.range1 ==> s.range2 < p.x <= s.range1)
    && (0.0 < s.error ==> -s.error / 2.0 <= off < s.error / 2.0)
    && (s.error == 0.0 ==> off == 0.0)
    && (s.error < 0.0 ==> s.error / 2.0 < off <= -s.error / 2.0)
  }

  /** A line sample is near the line. */
  lemma LineSample(s: Shape, math: MathLib, rand: nat -> Draw, k: nat)
    requires s.curve.Line?
    ensures NearLine(s, Sample(s, math, rand, k))
  {
    var p := Sample(s, math, rand, k);
    var noise := Noise(s.error, rand(k + 1));
    assert p.y - (s.curve.slope * p.x + s.curve.intercept) == noise;
    ScaleBounds(rand(k), s.range1, s.range2);
    NoiseBounds(s.error, rand(k + 1));
  }

  /** Every point generated for a line is near it. */
  lemma LineSamples(s: Shape, math: MathLib, rand: nat -> Draw, n: nat, i: nat)
    requires s.curve.Line? && i < n
    ensures |Samples(s, math, rand, n)| == n
    ensures NearLine(s, Samples(s, math, rand, n)[i])
  {
    SamplesAt(s, math, rand, n, i);
    LineSample(s, math, rand, i * DrawsPerSample(s.curve));
  }

  /** The point lies on the circle: shifted back from the centre its
      coordinates satisfy x^2 + y^2 = radius^2. */
  ghost predicate OnCircle(c: Curve, p: Point)
    requires c.Circle?
  {
    var q := Untranslate(c, p);
    q.x * q.x + q.y * q.y == c.radius * c.radius
  }

  /** With a zero error, an exact square root and a range inside the circle,
      a circle sample lies on the circle. */
  lemma CircleSample(s: Shape, math: MathLib, rand: nat -> Draw, k: nat)
    requires s.curve.Circle? && s.error == 0.0 && ExactSqrt(math)
    requires -s.curve.radius <= s.range1 <= s.range2 <= s.curve.radius
    ensures OnCircle(s.curve, Sample(s, math, rand, k))
  {
    var c := s.curve;
    var x := Scale(rand(k), s.range1, s.range2);
    ZeroErrorUpperArc(s, math, rand, k);
    ScaleBounds(rand(k), s.range1, s.range2);
    SquareWithin(x, c.radius);
    var q := Untranslate(c, Sample(s, math, rand, k));
    assert q == Point(x, Magnitude(c, math, x));
  }

  /** Every point generated for such a circle lies on it. */
  lemma CircleSamples(s: Shape, math: MathLib, rand: nat -> Draw, n: nat, i: nat)
    requires s.curve.Circle? && s.error == 0.0 && ExactSqrt(math)
    requires -s.curve.radius <= s.range1 <= s.range2 <= s.curve.radius
    requires i < n
    ensures |Samples(s, math, rand, n)| == n
    ensures OnCircle(s.curve, Samples(s, math, rand, n)[i])
  {
    SamplesAt(s, math, rand, n, i);
    CircleSample(s, math, rand, i * DrawsPerSample(s.curve));
  }

  /** With a zero error, an ellipse sample shifted back from the centre and
      turned back by the rotation is the point of the upper arc over an x in
      the sampled range (when sin^2 + cos^2 = 1 for the cached values). */
  lemma EllipseSample(s: Shape, math: MathLib, rand: nat -> Draw, k: nat)
    requires s.curve.Ellipse? && s.error == 0.0
    requires s.curve.sinr * s.curve.sinr + s.curve.cosr * s.curve.cosr == 1.0
    ensures var q := Unrotate(s.curve, Untranslate(s.curve, Sample(s, math, rand, k)));
            && q.x == Scale(rand(k), s.range1, s.range2)
            && q.y == Magnitude(s.curve, math, q.x)
            && (s.range1 < s.range2 ==> s.range1 <= q.x < s.range2)
  {
    var c := s.curve;
    var x := Scale(rand(k), s.range1, s.range2);
    var frame := Point(x, Magnitude(c, math, x));
    ZeroErrorUpperArc(s, math, rand, k);
    ScaleBounds(rand(k), s.range1, s.range2);
    TranslateRoundTrip(c, Rotate(c, frame));
    RotateRoundTrip(c, frame);
  }

  /** Every point generated for such an ellipse has the properties of
      EllipseSample. */
  lemma EllipseSamples(s: Shape, math: MathLib, rand: nat -> Draw, n: nat, i: nat)
    requires s.curve.Ellipse? && s.error == 0.0
    requires s.curve.sinr * s.curve.sinr + s.curve.cosr * s.curve.cosr == 1.0
    requires i < n
    ensures |Samples(s, math, rand, n)| == n
    ensures var q := Unrotate(s.curve, Untranslate(s.curve, Samples(s, math, rand, n)[i]));
            && q.y == Magnitude(s.curve, math, q.x)
            && (s.range1 < s.range2 ==> s.range1 <= q.x < s.range2)
  {
    SamplesAt(s, math, rand, n, i);
    EllipseSample(s, math, rand, i * DrawsPerSample(s.curve));
  }

  /** The point lies on the ellipse: shifted back from the centre and
      turned back by the rotation, its coordinates satisfy
      b^2 x^2 + a^2 y^2 = a^2 b^2, written as y^2 a^2 = b^2 a^2 - b^2 x^2. */
  ghost predicate OnEllipse(c: Curve, p: Point)
    requires c.Ellipse?
  {
    var q := Unrotate(c, Untranslate(c, p));
    q.y * q.y * (c.a * c.a) == c.b * c.b * (c.a * c.a) - c.b * c.b * (q.x * q.x)
  }

  /** With a zero error, an exact square root, a positive semi-axis a, a
      range inside [-a, a] and cached sin and cos with sin^2 + cos^2 = 1, an
      ellipse sample lies on the ellipse. */
  lemma EllipseSampleOnCurve(s: Shape, math: MathLib, rand: nat -> Draw, k: nat)
    requires s.curve.Ellipse? && s.error == 0.0 && ExactSqrt(math)
    requires s.curve.sinr * s.curve.sinr + s.curve.cosr * s.curve.cosr == 1.0
    requires 0.0 < s.curve.a && -s.curve.a <= s.range1 <= s.range2 <= s.curve.a
    ensures OnEllipse(s.curve, Sample(s, math, rand, k))
  {
    var c := s.curve;
    var q := Unrotate(c, Untranslate(c, Sample(s, math, rand, k)));
    EllipseSample(s, math, rand, k);
    ScaleBounds(rand(k), s.range1, s.range2);
    EllipseRadicandNonNegative(c, math, q.x);
    EllipseRadicandScaled(c, math, q.x);
  }

  /** Every point generated for such an ellipse lies on it. */
  lemma EllipseSamplesOnCurve(s: Shape, math: MathLib, rand: nat -> Draw, n: nat, i: nat)
    requires s.curve.Ellipse? && s.error == 0.0 && ExactSqrt(math)
    requires s.curve.sinr * s.curve.sinr + s.curve.cosr * s.curve.cosr == 1.0
    requires 0.0 < s.curve.a && -s.curve.a <= s.range1 <= s.range2 <= s.curve.a
    requires i < n
    ensures |Samples(s, math, rand, n)| == n
    ensures OnEllipse(s.curve, Samples(s, math, rand, n)[i])
  {
    SamplesAt(s, math, rand, n, i);
    EllipseSampleOnCurve(s, math, rand, i * DrawsPerSample(s.curve));
  }
}
