/** The factory: a type code chooses the shape, and the shape's parameters
    are read one by one from standard input.  The input is modelled as the
    sequence of numbers it still holds; a read past its end leaves the
    variable at the 0.0 it was initialised with. */
module Factory {
  import opened Shapes
  import opened Points

  datatype Option<T> = None | Some(value: T)

  /** How many parameters the shape with the given type code reads: two
      for a line (0), three for a circle (1), five for an ellipse (2), none
      for an unknown code. */
  function Arity(code: int): (n: nat)
    ensures 0 < n <==> 0 <= code <= 2
  {
    if code == 0 then 2
    else if code == 1 then 3
    else if code == 2 then 5
    else 0
  }

  /** n zeros. */
  function Zeros(n: nat): (z: seq<real>)
    ensures |z| == n && forall i :: 0 <= i < n ==> z[i] == 0.0
  {
    if n == 0 then [] else Zeros(n - 1) + [0.0]
  }

  /** The values n reads obtain from the input: its first n numbers, with
      0.0 for each read past its end. */
  function Padded(input: seq<real>, n: nat): (p: seq<real>)
    ensures n <= |input| ==> p == input[..n]
    ensures |input| <= n ==> p == input + Zeros(n - |input|)
  {
    if n <= |input| then input[..n] else input + Zeros(n - |input|)
  }

  /** The curve Create builds for a type code from the numbers the input
      holds, or None for an unknown code.  The ellipse caches the sine and
      cosine of its rotation. */
  function Decode(code: int, input: seq<real>, math: MathLib): (r: Option<Curve>)
    ensures r.Some? <==> 0 <= code <= 2
    ensures r.Some? ==> CachesAgree(r.value, math)
  {
    var v := Padded(input, Arity(code));
    if code == 0 then Some(Line(v[0], v[1]))
    else if code == 1 then Some(Circle(v[0], v[1], v[2]))
    else if code == 2 then Some(EllipseOf(v[0], v[1], v[2], v[3], v[4], math))
    else None
  }

  /** The type code of a curve. */
  function TypeCode(c: Curve): (code: int)
    ensures 0 <= code <= 2
  {
    match c
    case Line(_, _) => 0
    case Circle(_, _, _) => 1
    case Ellipse(_, _, _, _, _, _, _) => 2
  }

  /** The parameters of a curve in the order Create reads them. */
  function Fields(c: Curve): (f: seq<real>)
    ensures |f| == Arity(TypeCode(c))
  {
    match c
    case Line(slope, intercept) => [slope, intercept]
    case Circle(cx, cy, radius) => [cx, cy, radius]
    case Ellipse(cx, cy, a, b, rotation, _, _) => [cx, cy, a, b, rotation]
  }

  /** Every curve whose caches agree with the library is what Create builds
      from its type code and its parameters. */
  lemma DecodeFields(c: Curve, math: MathLib)
    requires CachesAgree(c, math)
    ensures Decode(TypeCode(c), Fields(c), math) == Some(c)
  {
    var f := Fields(c);
    assert Padded(f, Arity(TypeCode(c))) == f;
  }

  /** What Create builds has the code it was asked for, and its parameters
      are the values the reads obtained. */
  lemma FieldsDecode(code: int, input: seq<real>, math: MathLib)
    requires Decode(code, input, math).Some?
    ensures TypeCode(Decode(code, input, math).value) == code
    ensures Fields(Decode(code, input, math).value) == Padded(input, Arity(code))
  {
    var v := Padded(input, Arity(code));
    assert |v| == Arity(code);
    if code == 0 {
      assert v == [v[0], v[1]];
    } else if code == 1 {
      assert v == [v[0], v[1], v[2]];
    } else {
      assert v == [v[0], v[1], v[2], v[3], v[4]];
    }
  }

  /** Extra numbers after the parameters do not change the shape. */
  lemma DecodeIgnoresTail(code: int, input: seq<real>, tail: seq<real>, math: MathLib)
    requires Arity(code) <= |input|
    ensures Decode(code, input + tail, math) == Decode(code, input, math)
  {
    assert (input + tail)[..Arity(code)] == input[..Arity(code)];
  }

  /** With nothing left to read, every parameter is 0.0. */
  lemma DecodeEmpty(code: int, math: MathLib)
    ensures Decode(code, [], math) == if code == 0 then Some(Line(0.0, 0.0))
                                       else if code == 1 then Some(Circle(0.0, 0.0, 0.0))
                                       else if code == 2 then Some(EllipseOf(0.0, 0.0, 0.0, 0.0, 0.0, math))
                                       else None
  {
    assert [] + Zeros(Arity(code)) == Zeros(Arity(code));
  }

  /** Standard input: the numbers it still holds. */
  class Input {
    var rest: seq<real>

    constructor Of(numbers: seq<real>)
      ensures rest == numbers
    {
      rest := numbers;
    }

    /** operator>>: the next number, or 0.0 (the variable's initial value)
        when the input is exhausted. */
    method Extract() returns (v: real)
      modifies this
      ensures old(rest) != [] ==> v == old(rest)[0] && rest == old(rest)[1..]
      ensures old(rest) == [] ==> v == 0.0 && rest == []
    {
      v := 0.0;
      if rest != [] {
        v := rest[0];
        rest := rest[1..];
      }
    }
  }

  /** The shape for a type code with its parameters read from the input, or
      null for an unknown code, which reads nothing. */
  method Create(code: int, input: Input, math: MathLib) returns (t: TestPoints?)
    modifies input
    ensures t == null <==> Decode(code, old(input.rest), math).None?
    ensures t != null ==> fresh(t) && t.curve == Decode(code, old(input.rest), math).value
    ensures t != null ==> (t.range1, t.range2) == InitialRange(t.curve) && t.error == DefaultError
    ensures Arity(code) <= |old(input.rest)| ==> input.rest == old(input.rest)[Arity(code)..]
    ensures |old(input.rest)| <= Arity(code) ==> input.rest == []
  {
    if code == 0 {
      var slope := input.Extract();
      var intercept := input.Extract();
      t := new TestPoints.Line(slope, intercept);
    } else if code == 1 {
      var centrex := input.Extract();
      var centrey := input.Extract();
      var radius := input.Extract();
      t := new TestPoints.Circle(centrex, centrey, radius);
    } else if code == 2 {
      var centrex := input.Extract();
      var centrey := input.Extract();
      var a := input.Extract();
      var b := input.Extract();
      var rotation := input.Extract();
      t := new TestPoints.Ellipse(centrex, centrey, a, b, rotation, math);
    } else {
      t := null;
    }
  }
}
