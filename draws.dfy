/** The random draws of the point generator.

    The generator asks the C library's rand() for one value per random
    choice.  The model takes those values as an input: a `Draw` is one result
    of rand(), and the stream of results that follows a call of srand() is a
    function from the call number to a draw.  Everything the generator does
    with a draw is the scaling arithmetic below. */
module Draws {

  /** The largest value rand() returns (the value of the GNU C library). */
  const RAND_MAX: int := 0x7FFF_FFFF

  /** One result of rand(). */
  type Draw = r: int | 0 <= r <= RAND_MAX

  /** The draw as a fraction of the unit interval: rand() / (RAND_MAX + 1.0). */
  function Fraction(r: Draw): (u: real)
    ensures 0.0 <= u < 1.0
    ensures u < 0.5 <==> 2 * r < RAND_MAX + 1
  {
    r as real / (RAND_MAX as real + 1.0)
  }

  /** The part of a width that a fraction of the unit interval covers. */
  function Part(u: real, width: real): real
  {
    u * width
  }

  /** The part lies between zero and the width, reaching zero but never the
      width. */
  lemma PartBounds(u: real, width: real)
    requires 0.0 <= u < 1.0
    ensures 0.0 < width ==> 0.0 <= Part(u, width) < width
    ensures width == 0.0 ==> Part(u, width) == 0.0
    ensures width < 0.0 ==> width < Part(u, width) <= 0.0
  {
    if 0.0 < width {
      assert 0.0 < (1.0 - u) * width == width - u * width;
    } else if width < 0.0 {
      assert 0.0 < (1.0 - u) * -width == u * width - width;
    }
  }

  /** The part is below half the width exactly when the fraction is below
      one half and the width positive, or above one half and the width
      negative. */
  lemma PartSign(u: real, width: real)
    ensures Part(u, width) < width * 0.5 <==> (0.0 < width && u < 0.5) || (width < 0.0 && 0.5 < u)
  {
    var v := u - 0.5;
    assert u * width - width * 0.5 == v * width;
    if 0.0 < width {
      assert v < 0.0 <==> v * width < 0.0;
    } else if width < 0.0 {
      assert 0.0 < v <==> v * width < 0.0;
    }
  }

  /** A draw mapped from the unit interval onto the one from `low` towards
      `high`, as both RandomX and RandomError do it:
      rand() / (RAND_MAX + 1.0) * (high - low) + low. */
  function Scale(r: Draw, low: real, high: real): (x: real)
    ensures r == 0 ==> x == low
    ensures low == high ==> x == low
  {
    Part(Fraction(r), high - low) + low
  }

  /** The noise RandomError derives from one draw when the error is `error`:
      the draw scaled onto the interval from -error/2 to error/2. */
  function Noise(error: real, r: Draw): (n: real)
    ensures error == 0.0 ==> n == 0.0
    ensures r == 0 ==> n == -error / 2.0
  {
    var high := error * 0.5;
    var low := -high;
    Scale(r, low, high)
  }

  /** A scaled draw lies in the half-open interval from the first bound to
      the second, whichever way round the bounds are. */
  lemma ScaleBounds(r: Draw, low: real, high: real)
    ensures low < high ==> low <= Scale(r, low, high) < high
    ensures low == high ==> Scale(r, low, high) == low
    ensures high < low ==> high < Scale(r, low, high) <= low
  {
    PartBounds(Fraction(r), high - low);
  }

  /** The noise lies in [-error/2, error/2) for a positive error, is exactly
      zero for a zero error, and for a negative error lies in the reversed
      interval (error/2, -error/2]. */
  lemma NoiseBounds(error: real, r: Draw)
    ensures 0.0 < error ==> -error / 2.0 <= Noise(error, r) < error / 2.0
    ensures error == 0.0 ==> Noise(error, r) == 0.0
    ensures error < 0.0 ==> error / 2.0 < Noise(error, r) <= -error / 2.0
  {
    ScaleBounds(r, -(error * 0.5), error * 0.5);
  }

  /** The noise is negative exactly when the draw falls in the lower half of
      its range and the error is positive, or in the upper half and the error
      is negative. */
  lemma NoiseNegative(error: real, r: Draw)
    ensures Noise(error, r) < 0.0 <==>
              (0.0 < error && 2 * r < RAND_MAX + 1) || (error < 0.0 && RAND_MAX + 1 < 2 * r)
  {
    PartSign(Fraction(r), error * 0.5 - -(error * 0.5));
  }

  /** The C library's random number generator after a call of srand(): the
      results rand() will return, and how many of them have been taken. */
  class Rng {
    const results: nat -> Draw
    var taken: nat

    /** srand(): the generator restarts at the first result of a new stream. */
    constructor Seeded(results: nat -> Draw)
      ensures this.results == results && taken == 0
    {
      this.results := results;
      taken := 0;
    }

    /** rand(): the next result of the stream. */
    method Rand() returns (r: Draw)
      modifies this`taken
      ensures r == results(old(taken)) && taken == old(taken) + 1
    {
      r := results(taken);
      taken := taken + 1;
    }
  }
}
