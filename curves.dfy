/**
 * The five transfer curves of AudioBoost and the normalization maximum
 * derived from each of them.
 *
 * The curves are evaluated over `real`. The C library functions `tanh`,
 * `atan` and `sqrt` are kept abstract: they are the fields of a `MathLib`
 * value, and `Lawful` records the few facts about them that the code's
 * structure relies on (signs, bounds, oddness, and what a square root is).
 */
module Curves {

  /** The libm functions the curves call, left uninterpreted. */
  datatype MathLib = MathLib(tanh: real -> real, atan: real -> real, sqrt: real -> real)

  /** The value of pi used by both plug-ins. */
  const Pi: real := 3.1415926535897932384626433832795028842
  const HalfPi: real := Pi / 2.0

  /** What is known about `tanh`: bounded by 1, positive on positives, odd. */
  ghost predicate TanhLaw(m: MathLib) {
    && (forall y :: -1.0 < m.tanh(y) < 1.0)
    && (forall y :: 0.0 < y ==> 0.0 < m.tanh(y))
    && (forall y, z :: y + z == 0.0 ==> m.tanh(z) == -m.tanh(y))
  }

  /** What is known about `atan`: bounded by pi/2, positive on positives, odd. */
  ghost predicate AtanLaw(m: MathLib) {
    && (forall y :: -HalfPi < m.atan(y) < HalfPi)
    && (forall y :: 0.0 < y ==> 0.0 < m.atan(y))
    && (forall y, z :: y + z == 0.0 ==> m.atan(z) == -m.atan(y))
  }

  function Square(r: real): real {
    r * r
  }

  /**
   * What a square root is, on the values it is applied to. The trigger
   * makes the law apply only where the square of a root is written out,
   * as in `SqrtAtLeastOne`; a proof that merely unfolds the square-ratio
   * curve does not receive the squared-root facts.
   */
  ghost predicate SqrtLaw(m: MathLib) {
    forall y {:trigger Square(m.sqrt(y))} :: 0.0 <= y ==> 0.0 <= m.sqrt(y) && Square(m.sqrt(y)) == y
  }

  /**
   * Everything the model assumes of the libm functions. Oddness is phrased
   * over pairs `y + z == 0` so that it only relates terms already present.
   */
  ghost predicate Lawful(m: MathLib) {
    TanhLaw(m) && AtanLaw(m) && SqrtLaw(m)
  }

  function Abs(x: real): real {
    if x < 0.0 then -x else x
  }

  /** The curve index accepted by both validators. */
  type CurveId = c: int | 0 <= c <= 4

  /**
   * Whose curve helpers are meant. The two plug-ins compute the same curves
   * except curve 3, where the C++ plug-in's divisor is a macro that the
   * preprocessor expands without parentheses.
   */
  datatype Plugin = CPlugin | CppPlugin

  /**
   * Curve 0: the magnitude of the boosted sample, clamped to 1, carrying the
   * sign of the raw sample.
   */
  function HardClip(x: real, boost: real): (r: real)
    ensures Abs(r) <= 1.0
    ensures boost > 0.0 ==> (x < 0.0 <==> r < 0.0) && (x > 0.0 <==> r > 0.0)
    ensures Abs(x * boost) <= 1.0 ==> Abs(r) == Abs(x * boost)
    ensures Abs(x * boost) >= 1.0 ==> Abs(r) == 1.0
  {
    var tmp := if Abs(x * boost) > 1.0 then 1.0 else Abs(x * boost);
    if x < 0.0 then -tmp else tmp
  }

  /** Curve 1: the hyperbolic tangent, strictly inside (-1, 1) and with the sign of its argument. */
  function TanH(m: MathLib, v: real): (r: real)
    ensures TanhLaw(m) ==> -1.0 < r < 1.0
    ensures TanhLaw(m) && v > 0.0 ==> r > 0.0
    ensures TanhLaw(m) && v < 0.0 ==> r < 0.0
  {
    assert v + -v == 0.0;
    assert TanhLaw(m) && v < 0.0 ==> m.tanh(-v) > 0.0;
    m.tanh(v)
  }

  /**
   * Curve 3: the arctangent, scaled by pi/2 on both sides so that it stays
   * strictly inside (-1, 1); it has the sign of its argument.
   */
  function ScaledArcTan(m: MathLib, v: real): (r: real)
    ensures AtanLaw(m) ==> -1.0 < r < 1.0
    ensures AtanLaw(m) && v > 0.0 ==> r > 0.0
    ensures AtanLaw(m) && v < 0.0 ==> r < 0.0
  {
    assert v * HalfPi + -v * HalfPi == 0.0;
    assert AtanLaw(m) && v < 0.0 ==> m.atan(-v * HalfPi) > 0.0;
    m.atan(v * HalfPi) / HalfPi
  }

  /**
   * Curve 3 of the C++ plug-in as the preprocessor expands it: its `HalfPi`
   * macro is `M_PI/2.0f` without parentheses, so the arctangent is divided
   * by pi and then by 2. The result is a quarter of the scaled arctangent.
   */
  function ScaledArcTanAsWritten(m: MathLib, v: real): (r: real)
    ensures r == ScaledArcTan(m, v) / 4.0
  {
    var w := v * Pi / 2.0;
    assert w == v * HalfPi;
    var a := m.atan(w);
    assert a / Pi / 2.0 == (a / HalfPi) / 4.0;
    a / Pi / 2.0
  }

  /**
   * The expanded helper stays inside (-1/4, 1/4) where the intended curve
   * fills (-1, 1); at a boosted input of 1 the two differ.
   */
  lemma {:induction false} AsWrittenFallsShort(m: MathLib, v: real)
    requires AtanLaw(m)
    ensures -0.25 < ScaledArcTanAsWritten(m, v) < 0.25
    ensures ScaledArcTanAsWritten(m, 1.0) != ScaledArcTan(m, 1.0)
  {
    assert ScaledArcTan(m, 1.0) > 0.0;
  }

  /** Curve 2: one over the square root of one plus the square; in (0, 1], and 1 at 0. */
  function SquareRatioSigmoid(m: MathLib, v: real): (r: real)
    requires SqrtLaw(m)
    ensures 0.0 < r <= 1.0
    ensures v == 0.0 ==> r == 1.0
  {
    var y := 1.0 + v * v;
    assert y >= 1.0;
    SqrtAtLeastOne(m, y);
    SqrtOfOne(m);
    assert v == 0.0 ==> y == 1.0;
    1.0 / m.sqrt(y)
  }

  /** Curve 4: one over one plus the magnitude; never negative. */
  function LinearRatioSigmoid(v: real): (r: real)
    ensures 0.0 < r <= 1.0
    ensures r == 1.0 <==> v == 0.0
  {
    1.0 / (1.0 + Abs(v))
  }

  lemma NonNegativeFactor(a: real, b: real)
    requires b > 0.0 && a * b >= 0.0
    ensures a >= 0.0
  {
  }

  /** A square root of a value of at least one is itself at least one. */
  lemma {:induction false} SqrtAtLeastOne(m: MathLib, y: real)
    requires SqrtLaw(m) && y >= 1.0
    ensures m.sqrt(y) >= 1.0
  {
    assert Square(m.sqrt(y)) == y && 0.0 <= m.sqrt(y);
    var s := m.sqrt(y);
    assert (s - 1.0) * (s + 1.0) == s * s - 1.0;
    NonNegativeFactor(s - 1.0, s + 1.0);
  }

  /** The square root of one is one. */
  lemma {:induction false} SqrtOfOne(m: MathLib)
    requires SqrtLaw(m)
    ensures m.sqrt(1.0) == 1.0
  {
    SqrtAtLeastOne(m, 1.0);
    assert Square(m.sqrt(1.0)) == 1.0;
    var s := m.sqrt(1.0);
    assert s * s >= s;
    NonNegativeFactor(1.0 - s, s);
  }

  /**
   * The soft curve `c` (1 to 4) of plug-in `p` applied to the sample `x`
   * boosted by `boost`, before any limit is applied. The even curves 2
   * and 4 are positive and at most 1 whatever the sample.
   */
  function Shape(m: MathLib, p: Plugin, c: CurveId, x: real, boost: real): (r: real)
    requires SqrtLaw(m) && c != 0
    ensures c in {2, 4} ==> 0.0 < r <= 1.0
  {
    if c == 1 then TanH(m, x * boost)
    else if c == 2 then SquareRatioSigmoid(m, x * boost)
    else if c == 3 then
      (if p == CppPlugin then ScaledArcTanAsWritten(m, x * boost) else ScaledArcTan(m, x * boost))
    else LinearRatioSigmoid(x * boost)
  }

  /** Which curve function `Shape` applies for each index. */
  lemma ShapeAt(m: MathLib, p: Plugin, c: CurveId, x: real, boost: real)
    requires SqrtLaw(m) && c != 0
    ensures c == 1 ==> Shape(m, p, c, x, boost) == TanH(m, x * boost)
    ensures c == 2 ==> Shape(m, p, c, x, boost) == SquareRatioSigmoid(m, x * boost)
    ensures c == 3 && p == CPlugin ==> Shape(m, p, c, x, boost) == ScaledArcTan(m, x * boost)
    ensures c == 3 && p == CppPlugin ==> Shape(m, p, c, x, boost) == ScaledArcTanAsWritten(m, x * boost)
    ensures c == 4 ==> Shape(m, p, c, x, boost) == LinearRatioSigmoid(x * boost)
  {
  }

  /**
   * The plug-ins agree on every soft curve but curve 3, where the C++
   * value is a quarter of the C value.
   */
  lemma ShapePlugins(m: MathLib, c: CurveId, x: real, boost: real)
    requires SqrtLaw(m) && c != 0
    ensures c != 3 ==> Shape(m, CppPlugin, c, x, boost) == Shape(m, CPlugin, c, x, boost)
    ensures c == 3 ==> Shape(m, CppPlugin, c, x, boost) == Shape(m, CPlugin, c, x, boost) / 4.0
  {
    ShapeAt(m, CppPlugin, c, x, boost);
    ShapeAt(m, CPlugin, c, x, boost);
  }

  /**
   * Every soft curve lies in (-1, 1]; curves 1 and 3 take the sign of the
   * boosted sample, curves 2 and 4 are always positive.
   */
  lemma {:induction false} ShapeBounds(m: MathLib, p: Plugin, c: CurveId, x: real, boost: real)
    requires Lawful(m) && c != 0
    ensures -1.0 < Shape(m, p, c, x, boost) <= 1.0
    ensures c in {1, 3} && x * boost > 0.0 ==> Shape(m, p, c, x, boost) > 0.0
    ensures c in {1, 3} && x * boost < 0.0 ==> Shape(m, p, c, x, boost) < 0.0
    ensures c in {2, 4} ==> Shape(m, p, c, x, boost) > 0.0
  {
    ShapeAt(m, p, c, x, boost);
  }

  /**
   * Negating the sample negates the output of curves 1 and 3 and leaves
   * the output of curves 2 and 4 unchanged.
   */
  lemma {:induction false} ShapeParity(m: MathLib, p: Plugin, c: CurveId, x: real, boost: real)
    requires Lawful(m) && c != 0
    ensures c in {1, 3} ==> Shape(m, p, c, -x, boost) == -Shape(m, p, c, x, boost)
    ensures c in {2, 4} ==> Shape(m, p, c, -x, boost) == Shape(m, p, c, x, boost)
  {
    var v := x * boost;
    var w := (-x) * boost;
    assert w == -v;
    OddCurves(m, v, boost);
    EvenCurves(m, v);
    ShapeAt(m, p, c, x, boost);
    ShapeAt(m, p, c, -x, boost);
    if c == 1 {
      assert TanH(m, w) == TanH(m, -v);
    } else if c == 2 {
      assert SquareRatioSigmoid(m, w) == SquareRatioSigmoid(m, -v);
    } else if c == 3 {
      assert ScaledArcTan(m, w) == ScaledArcTan(m, -v);
      assert ScaledArcTanAsWritten(m, w) == ScaledArcTanAsWritten(m, -v);
    } else {
      assert LinearRatioSigmoid(w) == LinearRatioSigmoid(-v);
    }
  }

  /**
   * The normalization divisor: 1 for the hard clip, otherwise the value the
   * selected curve reaches at a full-scale input of 1.
   */
  function MaxVal(m: MathLib, p: Plugin, c: CurveId, boost: real): (r: real)
    requires SqrtLaw(m)
    ensures c == 0 ==> r == 1.0
    ensures c != 0 ==> r == Shape(m, p, c, 1.0, boost)
  {
    if c == 0 then 1.0
    else if c == 1 then TanH(m, boost)
    else if c == 2 then SquareRatioSigmoid(m, boost)
    else if c == 3 then
      (if p == CppPlugin then ScaledArcTanAsWritten(m, boost) else ScaledArcTan(m, boost))
    else LinearRatioSigmoid(boost)
  }

  /** The plug-ins compute the same maximum for every curve but curve 3, where the C++ one is a quarter. */
  lemma MaxValPlugins(m: MathLib, c: CurveId, boost: real)
    requires SqrtLaw(m)
    ensures c != 3 ==> MaxVal(m, CppPlugin, c, boost) == MaxVal(m, CPlugin, c, boost)
    ensures c == 3 ==> MaxVal(m, CppPlugin, c, boost) == MaxVal(m, CPlugin, c, boost) / 4.0
  {
    if c != 0 {
      ShapePlugins(m, c, 1.0, boost);
    }
  }

  /** For a positive boost the maximum is positive and at most 1, so it can be divided by. */
  lemma {:induction false} MaxValBounds(m: MathLib, p: Plugin, c: CurveId, boost: real)
    requires Lawful(m) && boost > 0.0
    ensures 0.0 < MaxVal(m, p, c, boost) <= 1.0
  {
    if c != 0 {
      ShapeBounds(m, p, c, 1.0, boost);
    }
  }

  /** Curves 0, 1 and 3 turn a negated input into a negated output: they are odd. */
  lemma {:induction false} OddCurves(m: MathLib, v: real, boost: real)
    requires TanhLaw(m) && AtanLaw(m)
    ensures HardClip(-v, boost) == -HardClip(v, boost)
    ensures TanH(m, -v) == -TanH(m, v)
    ensures ScaledArcTan(m, -v) == -ScaledArcTan(m, v)
  {
    assert v + -v == 0.0;
    assert (-v) * HalfPi + v * HalfPi == 0.0;
    HardClipNegation(v, boost);
  }

  lemma HardClipNegation(v: real, boost: real)
    ensures HardClip(-v, boost) == -HardClip(v, boost)
  {
    assert (-v) * boost == -(v * boost);
    assert Abs((-v) * boost) == Abs(v * boost);
  }

  /** Curves 2 and 4 lose the sign of the input: they are even. */
  lemma {:induction false} EvenCurves(m: MathLib, v: real)
    requires SqrtLaw(m)
    ensures SquareRatioSigmoid(m, -v) == SquareRatioSigmoid(m, v)
    ensures LinearRatioSigmoid(-v) == LinearRatioSigmoid(v)
  {
    assert (-v) * (-v) == v * v;
  }
}
