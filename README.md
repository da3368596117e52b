# TestPoints: a verified model of the shape point generator

TestPoints generates noisy sample points on a line, a circle or an ellipse.
It is meant as test input for curve-fitting code. A shape object holds three
mutable values: the x-range it samples (`m_range1`, `m_range2`) and the
error (`m_error`). Its curve parameters are fixed when it is built.
`Generate` draws `count` samples. Each sample takes its values in this order:

1. a random x in the range;
2. the curve value at x, where a circle or an ellipse first draws a random
   sign to pick its upper or lower arc;
3. a random error added to y;
4. a rotation (ellipse only);
5. a translation by the centre (circle and ellipse).

A factory builds the shape from a type code (0 line, 1 circle, 2 ellipse)
and reads its parameters from standard input.

The model has five modules, one per file:

- `Draws` (draws.dfy): one `rand()` result and the scaling arithmetic of
  `RandomX` and `RandomError`. Also the `Rng` class, which stands for the C
  library generator after a `srand()`.
- `Shapes` (shapes.dfy): the `Curve` datatype, one variant per subclass, and
  one function per virtual hook: the initial range, `ValidateRange`,
  `Equation`, `RotateXY` and `TranslateXY`.
- `Sampling` (sampling.dfy): `Sample` and `Samples`, which specify what
  `Generate` produces from a stream of `rand()` results. The lemmas about
  the points generated are here.
- `Points` (test_points.dfy): the class `TestPoints`. Its fields `range1`,
  `range2` and `error` are updated in place. `curve` is a `const`, so the
  curve parameters cannot change after construction. Each member function
  of the source has a method, except the base constructor, whose defaults
  are set by each of the three variant constructors. `Generate` is a loop
  proved against `Samples`; its body is the method `NextSample`.
- `Factory` (factory.dfy): `Decode`, which specifies `TestPointsFactory::Create`,
  its round-trip lemmas, and the imperative `Create` over an `Input` stream.

How the environment is modelled:

- `rand()` is an input. `Generate` seeds a fresh generator with a stream
  `rand: nat -> Draw`, because the source calls `srand` at the start of
  every `Generate`.
- `RAND_MAX` is 0x7FFFFFFF, the GNU C library value.
- `double` is `real`.
- `sqrt`, `sin` and `cos` are uninterpreted functions, passed in as a
  `MathLib` value. `MathLib` also gives the result of a floating-point
  division by zero (an ellipse with `a == 0`).

The model follows the code, including where it may surprise a reader:

- The ellipse rotation is stored as given, with no normalisation.
- A negative error gives noise in (error/2, -error/2], not zero.
- `SetRange` does not keep range1 <= range2. Clamping can leave the bounds
  inverted (`Shapes.ValidatedRangeMayInvert`).

## Model

| member | source | states |
|---|---|---|
| Draws.Fraction | TestPoints.cpp:51 | rand() / (RAND_MAX + 1.0) lies in [0, 1), and is below 1/2 exactly when 2r < RAND_MAX + 1 |
| Draws.PartBounds | TestPoints.cpp:59 | a fraction in [0, 1) of a width lies between 0 and the width, reaching 0 but never the width, whatever the width's sign |
| Draws.PartSign | TestPoints.cpp:51 | the scaled part is below half the width exactly when the fraction is below 1/2 and the width positive, or above 1/2 and the width negative |
| Draws.Scale | TestPoints.cpp:59 | the scaling of one draw onto the interval from low to high: the draw 0 gives low exactly, and equal bounds give that bound |
| Draws.Noise | TestPoints.cpp:47-52 | RandomError's value for one draw: exactly 0 for error 0, and -error/2 for the draw 0 |
| Draws.ScaleBounds | TestPoints.cpp:54-60 | RandomX's value lies in [range1, range2) when range1 < range2, equals range1 when the bounds are equal, and lies in (range2, range1] when they are inverted |
| Draws.NoiseBounds | TestPoints.cpp:47-52 | RandomError lies in [-e/2, e/2) for e > 0, is exactly 0 for e = 0, and lies in (e/2, -e/2] for e < 0 |
| Draws.NoiseNegative | TestPoints.cpp:47-52 | RandomError is negative exactly when e > 0 and the draw is in the lower half of [0, RAND_MAX], or e < 0 and it is in the upper half |
| Draws.Rng.Seeded | TestPoints.cpp:33 | srand restarts the generator at the first result of its stream |
| Draws.Rng.Rand | TestPoints.cpp:51 | rand() returns the next result of the stream and advances by one |
| Shapes.EllipseOf | TestPoints.cpp:129-143 | the ellipse keeps its rotation unchanged and caches sin and cos of it |
| Shapes.InitialRange | TestPoints.cpp:141-142 | the range a shape starts with: the base default (-50, 50) for a line, (-radius, radius) for a circle (lines 105-106), (-a, a) for an ellipse |
| Shapes.Max | TestPoints.cpp:123 | std::max: the larger argument, one of the two |
| Shapes.Min | TestPoints.cpp:124 | std::min: the smaller argument, one of the two |
| Shapes.ValidatedRange | TestPoints.cpp:121-125 | line: bounds unchanged; circle or ellipse: lower bound is the larger of range1 and -radius (or -a), upper bound the smaller of range2 and radius (or a) |
| Shapes.ValidatedRangeIdempotent | TestPoints.cpp:121-125 | clamping already stored bounds again changes nothing |
| Shapes.ValidatedRangeIsIntersection | TestPoints.cpp:165-169 | x lies in the clamped interval iff it lies in the requested interval and in [-support, support] |
| Shapes.ValidatedRangeOrdered | TestPoints.cpp:165-169 | the clamped bounds are ordered iff the request is ordered and meets [-support, support]; otherwise they are inverted, never swapped |
| Shapes.ValidatedRangeMayInvert | TestPoints.cpp:121-125 | on a circle of radius 5, (10, 20) is stored as (10, 5) and (-100, 100) as (-5, 5) |
| Shapes.InitialRangeIsValidated | TestPoints.cpp:98-107 | each variant's initial range is a fixed point of its clamp |
| Shapes.Sign | TestPoints.cpp:111 | the sign is -1 exactly when the sign draw's error is negative, +1 exactly when it is not |
| Shapes.Magnitude | TestPoints.cpp:148 | the square root of the radicand r^2 - x^2 (line 112) or b^2 (1 - x^2 / a^2); with an exact sqrt and a non-negative radicand it is non-negative and squares back to the radicand |
| Shapes.CircleRadicand | TestPoints.cpp:112 | over [-radius, radius] the circle's radicand is non-negative and adds to x^2 to give radius^2 |
| Shapes.EllipseRadicandNonNegative | TestPoints.cpp:148 | for a > 0 and x in [-a, a] the ellipse's radicand is non-negative |
| Shapes.EllipseRadicandScaled | TestPoints.cpp:148 | for a > 0 the ellipse's radicand times a^2 is b^2 a^2 - b^2 x^2 |
| Shapes.Equation | TestPoints.cpp:91-149 | the noiseless value at x: for a line (lines 91-94) y - intercept = slope·x; for a circle or an ellipse (lines 145-149) plus or minus the arc height |
| Shapes.EquationArc | TestPoints.cpp:145-149 | a circle or an ellipse returns minus the arc height when the sign draw's error is negative, and the arc height otherwise |
| Shapes.Rotate | TestPoints.cpp:157-163 | a no-op for a line or a circle; for an ellipse with rotation sin 0, cos 1 the point is unchanged |
| Shapes.RotateRoundTrip | TestPoints.cpp:157-163 | when sin^2 + cos^2 = 1 for the cached values, turning back by the rotation recovers the point |
| Shapes.Translate | TestPoints.cpp:115-119 | a no-op for a line; a circle or an ellipse (lines 151-155) moves the point by exactly its centre |
| Shapes.TranslateRoundTrip | TestPoints.cpp:151-155 | subtracting the centre recovers the point that was translated |
| Shapes.DrawsPerSample | TestPoints.cpp:37-39 | a sample takes 2 draws for a line (x, noise) and 3 for a circle or an ellipse (x, sign inside Equation at lines 111 and 147, noise) |
| Sampling.Sample | TestPoints.cpp:37-41 | one iteration: x, its curve value, plus noise, rotated, translated; for a line or a circle the point's x, shifted back, is the drawn x |
| Sampling.Samples | TestPoints.cpp:35-44 | count iterations give exactly count points |
| Sampling.SamplesAt | TestPoints.cpp:35-44 | n samples are n points, and point i uses the draws at positions i·D onwards (D draws per sample: 2 for a line, 3 otherwise) |
| Sampling.SampleReadsItsDraws | TestPoints.cpp:37-39 | a sample depends only on its own D draws |
| Sampling.SamplesReadFirstDraws | TestPoints.cpp:35-44 | n samples depend only on the first n·D results of the stream |
| Sampling.ZeroErrorUpperArc | TestPoints.cpp:145-149 | with error 0, a circle or ellipse sample is the rotated, translated point of the upper arc over its x |
| Sampling.LineSample | TestPoints.cpp:91-94 | a line sample has x in [range1, range2), equal to range1 for equal bounds and in (range2, range1] for inverted ones; it lies within [-e/2, e/2) of the line for e > 0, exactly on it for e = 0, and within (e/2, -e/2] for e < 0 |
| Sampling.LineSamples | TestPoints.cpp:35-44 | every generated line point has the properties of LineSample |
| Sampling.CircleSample | TestPoints.cpp:109-119 | with error 0, an exact sqrt and a range inside [-radius, radius], a circle sample lies on the circle |
| Sampling.CircleSamples | TestPoints.cpp:35-44 | every point generated for such a circle lies on it |
| Sampling.EllipseSample | TestPoints.cpp:145-163 | with error 0, an ellipse sample, untranslated and unrotated, is (x, arc height at x) for the drawn x, in [range1, range2) |
| Sampling.EllipseSamples | TestPoints.cpp:35-44 | every point generated for such an ellipse has the properties of EllipseSample |
| Sampling.EllipseSampleOnCurve | TestPoints.cpp:145-163 | with error 0, an exact sqrt, a > 0, a range inside [-a, a] and sin^2 + cos^2 = 1, the untranslated, unrotated sample satisfies y^2 a^2 = b^2 a^2 - b^2 x^2 |
| Sampling.EllipseSamplesOnCurve | TestPoints.cpp:35-44 | every point generated for such an ellipse lies on it |
| Points.TestPoints.Line | TestPoints.cpp:86-89 | a line keeps the base defaults: range (-50, 50), error 1.0 |
| Points.TestPoints.Circle | TestPoints.cpp:98-107 | a circle starts with range (-radius, radius) and error 1.0 |
| Points.TestPoints.Ellipse | TestPoints.cpp:129-143 | an ellipse starts with range (-a, a) and error 1.0, and keeps the rotation as given with its sin and cos cached |
| Points.TestPoints.SetRange | TestPoints.cpp:18-23 | the stored bounds are the variant's clamp of the request; the error is unchanged |
| Points.TestPoints.SetError | TestPoints.cpp:25-28 | the error is stored as given, negative values included; the range is unchanged |
| Points.TestPoints.ValidateRange | TestPoints.cpp:121-125 | the by-reference bounds end up as the variant's clamp (base no-op, circle, ellipse) |
| Points.TestPoints.GetXRange | TestPoints.cpp:62-66 | returns the stored bounds |
| Points.TestPoints.RandomError | TestPoints.cpp:47-52 | takes one draw and returns its noise for the current error |
| Points.TestPoints.RandomX | TestPoints.cpp:54-60 | takes one draw and returns it scaled onto the stored range |
| Points.TestPoints.Equation | TestPoints.cpp:91-149 | a line (lines 91-94) takes no draw and returns slope·x + intercept; a circle (109-113) or an ellipse (145-149) takes one sign draw and returns the signed arc height |
| Points.TestPoints.RotateXY | TestPoints.cpp:157-163 | the ellipse rotation by the cached sin and cos; a no-op otherwise |
| Points.TestPoints.TranslateXY | TestPoints.cpp:115-119 | the shift by the centre for a circle or an ellipse; a no-op for a line |
| Points.TestPoints.NextSample | TestPoints.cpp:37-41 | one loop iteration takes D draws and produces the specified sample |
| Points.TestPoints.Generate | TestPoints.cpp:30-45 | exactly max(count, 0) points, the specified samples of a freshly seeded stream, in order |
| Factory.Arity | TestPoints.cpp:179-212 | a known code reads a positive number of values (2, 3 or 5), an unknown code none |
| Factory.Padded | TestPoints.cpp:181-208 | the reads obtain the first n input values, with 0.0 for each read past the end |
| Factory.Decode | TestPoints.cpp:177-213 | a shape exactly for codes 0, 1 and 2, with its ellipse caches agreeing with the library |
| Factory.DecodeFields | TestPoints.cpp:177-213 | a curve's code and parameters, read back, build that curve |
| Factory.FieldsDecode | TestPoints.cpp:177-213 | the shape built has the requested code, and its parameters are the values read |
| Factory.DecodeIgnoresTail | TestPoints.cpp:177-213 | values after a shape's parameters do not affect it |
| Factory.DecodeEmpty | TestPoints.cpp:181-203 | with nothing to read, every parameter is 0.0 |
| Factory.Input.Extract | TestPoints.cpp:183-184 | operator>> yields the next value and consumes it, or 0.0 when the input is exhausted |
| Factory.Create | TestPoints.cpp:177-213 | null exactly for unknown codes; otherwise a fresh object with the decoded curve and its initial range and error; consumes exactly the parameters it reads, none for an unknown code |

## Left out

- main.cpp (command-line parsing, usage text, exit codes) is not part of this model.
- Seeding from the clock (`srand(time(NULL))`): the stream of `rand()` results is a parameter of `Generate`.
- Floating-point evaluation: `sqrt`, `sin` and `cos` are uninterpreted, and arithmetic is on reals, without rounding, infinities or NaN. Division by zero is the one exception, represented by `MathLib.divByZero`.
- The cached squares `m_radius2`, `m_a2` and `m_b2` are computed where they are used.
- Output: the count line and the formatted `x,y` lines written to the stream (`setprecision`, `fixed`). `Generate` returns the points instead.
- Input that is not a number: `Input` holds numbers already parsed. A token that fails to parse, and the stream failure it causes, is not modelled.
- The `Generate` overload that fills a vector, `CompareCoordinateValue`, `CompareAngleValue` and the derived `operator==` are declared in TestPoints.h but not defined, so they are not modelled. The base `operator==` always returns false and is not modelled either.
- TestPoints.h declares `Create(int, std::istream&)`, but the definition is `Create(int)` reading `std::cin`. The model follows the definition, with the input stream passed as a parameter.
- Sampling.CircleSample: proved only for error 0, an exact square root and a range inside [-radius, radius]. With noise, or with the sqrt of a negative number, there is no exact curve relation to state.
- Sampling.EllipseSampleOnCurve: proved only for error 0, an exact square root, a > 0, a range inside [-a, a] and a cached sin/cos pair with sin^2 + cos^2 = 1. With noise, a = 0 (a division by zero) or the sqrt of a negative number, there is no exact curve relation to state.
