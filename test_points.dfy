/** The shape object: a range and an error that its owner may change at any
    time, and curve parameters fixed when it is built.  Its methods follow
    the source's member functions one by one; the variant hooks dispatch on
    the curve's tag. */
module Points {
  import opened Draws
  import opened Shapes
  import opened Sampling

  class TestPoints {
    var range1: real
    var range2: real
    var error: real
    const curve: Curve

    /** The abstract state of the object. */
    function Value(): Shape
      reads this
    {
      Shape(curve, range1, range2, error)
    }

    /** A line: the base defaults for range and error. */
    constructor Line(slope: real, intercept: real)
      ensures curve == Shapes.Line(slope, intercept)
      ensures range1 == DefaultRange1 && range2 == DefaultRange2 && error == DefaultError
      ensures (range1, range2) == InitialRange(curve)
    {
      curve := Shapes.Line(slope, intercept);
      range1, range2, error := DefaultRange1, DefaultRange2, DefaultError;
    }

    /** A circle: the base defaults, then the range overwritten with
        (-radius, radius). */
    constructor Circle(centrex: real, centrey: real, radius: real)
      ensures curve == Shapes.Circle(centrex, centrey, radius)
      ensures range1 == -radius && range2 == radius && error == DefaultError
      ensures (range1, range2) == InitialRange(curve)
    {
      curve := Shapes.Circle(centrex, centrey, radius);
      range1, range2, error := DefaultRange1, DefaultRange2, DefaultError;
      new;
      range1 := -radius;
      range2 := radius;
    }

    /** An ellipse: the rotation stored as given with its sine and cosine
        cached, the base defaults, then the range overwritten with (-a, a). */
    constructor Ellipse(centrex: real, centrey: real, a: real, b: real, rotation: real, math: MathLib)
      ensures curve == EllipseOf(centrex, centrey, a, b, rotation, math)
      ensures curve.rotation == rotation && CachesAgree(curve, math)
      ensures range1 == -a && range2 == a && error == DefaultError
      ensures (range1, range2) == InitialRange(curve)
    {
      curve := EllipseOf(centrex, centrey, a, b, rotation, math);
      range1, range2, error := DefaultRange1, DefaultRange2, DefaultError;
      new;
      range1 := -a;
      range2 := a;
    }

    /** Stores the requested range after the variant's clamp; nothing else
        changes. */
    method SetRange(r1: real, r2: real)
      modifies this`range1, this`range2
      ensures (range1, range2) == ValidatedRange(curve, r1, r2)
      ensures error == old(error)
    {
      var v1, v2 := ValidateRange(r1, r2);
      range1 := v1;
      range2 := v2;
    }

    /** Stores the error as given, negative values included; nothing else
        changes. */
    method SetError(e: real)
      modifies this`error
      ensures error == e
      ensures range1 == old(range1) && range2 == old(range2)
    {
      error := e;
    }

    /** The clamp: a no-op for a line; a circle raises the lower bound to
        -radius and lowers the upper one to radius, an ellipse likewise
        against a. */
    method ValidateRange(r1: real, r2: real) returns (v1: real, v2: real)
      ensures (v1, v2) == ValidatedRange(curve, r1, r2)
    {
      v1, v2 := r1, r2;
      match curve
      case Line(_, _) =>
      case Circle(_, _, radius) =>
        v1 := Max(v1, -radius);
        v2 := Min(v2, radius);
      case Ellipse(_, _, a, _, _, _, _) =>
        v1 := Max(v1, -a);
        v2 := Min(v2, a);
    }

    /** The stored bounds. */
    method GetXRange() returns (low: real, high: real)
      ensures low == range1 && high == range2
    {
      low := range1;
      high := range2;
    }

    /** One draw scaled onto [-error/2, error/2). */
    method RandomError(rng: Rng) returns (e: real)
      modifies rng
      ensures e == Noise(error, rng.results(old(rng.taken)))
      ensures rng.taken == old(rng.taken) + 1
    {
      var high := error * 0.5;
      var low := -high;
      var r := rng.Rand();
      e := Part(Fraction(r), high - low) + low;
    }

    /** One draw scaled onto [range1, range2). */
    method RandomX(rng: Rng) returns (x: real)
      modifies rng
      ensures x == Scale(rng.results(old(rng.taken)), range1, range2)
      ensures rng.taken == old(rng.taken) + 1
    {
      var low, high := GetXRange();
      var r := rng.Rand();
      x := Part(Fraction(r), high - low) + low;
    }

    /** The curve value at x; a circle or an ellipse first takes a sign draw
        through RandomError and returns that sign times the height of its
        upper arc. */
    method Equation(x: real, rng: Rng, math: MathLib) returns (y: real)
      modifies rng
      ensures y == Shapes.Equation(curve, math, x, Noise(error, rng.results(old(rng.taken))))
      ensures rng.taken == old(rng.taken) + DrawsPerSample(curve) - 2
    {
      if curve.Line? {
        y := curve.slope * x + curve.intercept;
      } else {
        var n := RandomError(rng);
        var sign := if n < 0.0 then -1 else 1;
        y := sign as real * Magnitude(curve, math, x);
      }
    }

    /** The ellipse's rotation about the origin; a no-op otherwise. */
    method RotateXY(x: real, y: real) returns (x': real, y': real)
      ensures Point(x', y') == Rotate(curve, Point(x, y))
    {
      x', y' := x, y;
      if curve.Ellipse? {
        var xx := x * curve.cosr - y * curve.sinr;
        var yy := x * curve.sinr + y * curve.cosr;
        x', y' := xx, yy;
      }
    }

    /** The shift by the centre of a circle or an ellipse; a no-op for a
        line. */
    method TranslateXY(x: real, y: real) returns (x': real, y': real)
      ensures Point(x', y') == Translate(curve, Point(x, y))
    {
      x', y' := x, y;
      if !curve.Line? {
        x' := x' + curve.cx;
        y' := y' + curve.cy;
      }
    }

    /** count samples (none for a negative count) from the rand() results
        that follow the srand() at the start of the call. */
    method Generate(count: int, rand: nat -> Draw, math: MathLib) returns (points: seq<Point>)
      ensures |points| == if count < 0 then 0 else count
      ensures points == Samples(Value(), math, rand, |points|)
    {
      var rng := new Rng.Seeded(rand);
      points := [];
      var i := 0;
      while i < count
        invariant 0 <= i && (i <= count || i == 0)
        invariant rng.results == rand && rng.taken == i * DrawsPerSample(curve)
        invariant |points| == i && points == Samples(Value(), math, rand, i)
      {
        var p := NextSample(rng, math);
        points := points + [p];
        i := i + 1;
      }
    }

    /** The body of Generate's loop: an x, its curve value, plus noise,
        rotated, translated. */
    method NextSample(rng: Rng, math: MathLib) returns (p: Point)
      modifies rng
      ensures p == Sample(Value(), math, rng.results, old(rng.taken))
      ensures rng.taken == old(rng.taken) + DrawsPerSample(curve)
    {
      var x := RandomX(rng);
      var y := Equation(x, rng, math);
      var noise := RandomError(rng);
      y := y + noise;
      x, y := RotateXY(x, y);
      x, y := TranslateXY(x, y);
      p := Point(x, y);
    }
  }
}
