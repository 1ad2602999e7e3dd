/**
 * The per-sample transform and the in-place pass over an interleaved
 * buffer, shared by both plug-ins.
 */
module Engine {
  import opened Curves

  /** The settings a filter is built with; none of them changes afterwards. */
  datatype Settings = Settings(boost: real, limit: real, curve: CurveId, normalize: bool)

  /** The ranges both validators enforce on boost and limit. */
  predicate InRange(s: Settings) {
    0.5 <= s.boost <= 20.0 && 0.1 <= s.limit <= 1.0
  }

  /** A maximum that may be divided by whenever normalization is on. */
  predicate Divisible(s: Settings, maxval: real) {
    s.normalize ==> maxval != 0.0
  }

  /** Validated settings together with the maximum derived from them. */
  ghost predicate Calibrated(m: MathLib, p: Plugin, s: Settings, maxval: real) {
    SqrtLaw(m) && InRange(s) && maxval == MaxVal(m, p, s.curve, s.boost)
  }

  /**
   * The curve value computed for one sample of plug-in `p`, before
   * normalization and the final limit. The hard clip leaves out the limit
   * and never exceeds full scale; each soft curve already multiplies its
   * shape by the limit here, and the even curves stay positive.
   */
  function CurveBody(m: MathLib, p: Plugin, s: Settings, x: real): (r: real)
    requires SqrtLaw(m)
    ensures s.curve == 0 ==> Abs(r) <= 1.0
    ensures s.curve in {2, 4} && s.limit > 0.0 ==> r > 0.0
  {
    if s.curve == 0 then HardClip(x, s.boost) else Shape(m, p, s.curve, x, s.boost) * s.limit
  }

  /**
   * The value stored back for a sample `x`: normalized if asked, then
   * limited. The even curves lose the sign of the sample: their output is
   * positive whenever the limit and the maximum are.
   */
  function SampleOut(m: MathLib, p: Plugin, s: Settings, maxval: real, x: real): (r: real)
    requires SqrtLaw(m) && Divisible(s, maxval)
    ensures s.curve in {2, 4} && s.limit > 0.0 && (s.normalize ==> maxval > 0.0) ==> r > 0.0
  {
    var val := CurveBody(m, p, s, x);
    (if s.normalize then val / maxval else val) * s.limit
  }

  /** Scaling a value of magnitude at most 1 by a limit in (0, 1] keeps it within the limit and keeps its sign. */
  lemma ScaledOnce(a: real, l: real)
    requires Abs(a) <= 1.0 && 0.0 < l <= 1.0
    ensures Abs(a * l) <= l
    ensures a < 0.0 <==> a * l < 0.0
    ensures a > 0.0 <==> a * l > 0.0
  {
    if a < 0.0 {
      assert a * l == -((-a) * l);
    }
  }

  /** The same, for scaling once or twice. */
  lemma ScaledMagnitude(a: real, l: real)
    requires Abs(a) <= 1.0 && 0.0 < l <= 1.0
    ensures Abs(a * l) <= l && Abs(a * l * l) <= l
    ensures a < 0.0 <==> a * l < 0.0
    ensures a > 0.0 <==> a * l > 0.0
  {
    ScaledOnce(a, l);
    var p := a * l;
    assert Abs(p) <= 1.0;
    ScaledOnce(p, l);
  }

  /**
   * The hard clip keeps the output within the limit and keeps the sign of
   * the input; it applies the limit once, and its maximum of 1 makes
   * normalization change nothing.
   */
  lemma {:induction false} HardClipOutput(m: MathLib, p: Plugin, s: Settings, maxval: real, x: real)
    requires Calibrated(m, p, s, maxval) && s.curve == 0
    ensures Abs(SampleOut(m, p, s, maxval, x)) <= s.limit
    ensures x < 0.0 <==> SampleOut(m, p, s, maxval, x) < 0.0
    ensures x > 0.0 <==> SampleOut(m, p, s, maxval, x) > 0.0
    ensures SampleOut(m, p, s, maxval, x) == HardClip(x, s.boost) * s.limit
  {
    var h := HardClip(x, s.boost);
    assert maxval == 1.0;
    assert CurveBody(m, p, s, x) == h;
    assert SampleOut(m, p, s, maxval, x) == h * s.limit;
    ScaledMagnitude(h, s.limit);
  }

  /**
   * Curves 1 to 4 multiply by the limit twice: once in the curve body and
   * once when the sample is stored.
   */
  lemma {:induction false} LimitAppliedTwice(m: MathLib, p: Plugin, s: Settings, maxval: real, x: real)
    requires SqrtLaw(m) && Divisible(s, maxval) && s.curve != 0
    ensures var shape := Shape(m, p, s.curve, x, s.boost);
      SampleOut(m, p, s, maxval, x) == (if s.normalize then shape / maxval else shape) * s.limit * s.limit
  {
    BodyOfShape(m, p, s, x);
    OutOfBody(m, p, s, maxval, x);
    Regroup(Shape(m, p, s.curve, x, s.boost), CurveBody(m, p, s, x), SampleOut(m, p, s, maxval, x),
      s.limit, maxval, s.normalize);
  }

  lemma BodyOfShape(m: MathLib, p: Plugin, s: Settings, x: real)
    requires SqrtLaw(m) && s.curve != 0
    ensures CurveBody(m, p, s, x) == Shape(m, p, s.curve, x, s.boost) * s.limit
  {
  }

  lemma OutOfBody(m: MathLib, p: Plugin, s: Settings, maxval: real, x: real)
    requires SqrtLaw(m) && Divisible(s, maxval)
    ensures var body := CurveBody(m, p, s, x);
      SampleOut(m, p, s, maxval, x) == (if s.normalize then body / maxval else body) * s.limit
  {
  }

  lemma Regroup(a: real, body: real, out: real, l: real, d: real, divide: bool)
    requires divide ==> d != 0.0
    requires body == a * l && out == (if divide then body / d else body) * l
    ensures out == (if divide then a / d else a) * l * l
  {
    if divide {
      assert (a * l) / d * l == (a / d) * l * l;
    }
  }

  /**
   * A full-scale input of 1 reaches the curve's own maximum. With
   * normalization the soft curves then deliver the square of the limit,
   * and the hard clip delivers the limit scaled by the smaller of boost and 1.
   */
  lemma {:induction false} FullScale(m: MathLib, p: Plugin, s: Settings)
    requires Lawful(m) && InRange(s) && s.normalize
    ensures 0.0 < MaxVal(m, p, s.curve, s.boost) <= 1.0
    ensures s.curve != 0 ==> SampleOut(m, p, s, MaxVal(m, p, s.curve, s.boost), 1.0) == s.limit * s.limit
    ensures s.curve == 0 ==>
      SampleOut(m, p, s, MaxVal(m, p, s.curve, s.boost), 1.0) == (if s.boost > 1.0 then 1.0 else s.boost) * s.limit
  {
    var maxval := MaxVal(m, p, s.curve, s.boost);
    MaxValBounds(m, p, s.curve, s.boost);
    if s.curve != 0 {
      SoftFullScale(m, p, s, maxval);
    } else {
      HardClipOutput(m, p, s, maxval, 1.0);
    }
  }

  lemma {:induction false} SoftFullScale(m: MathLib, p: Plugin, s: Settings, maxval: real)
    requires SqrtLaw(m) && s.normalize && s.curve != 0
    requires maxval == Shape(m, p, s.curve, 1.0, s.boost) && maxval != 0.0
    ensures SampleOut(m, p, s, maxval, 1.0) == s.limit * s.limit
  {
    LimitAppliedTwice(m, p, s, maxval, 1.0);
    SelfQuotient(maxval, SampleOut(m, p, s, maxval, 1.0), s.limit);
  }

  lemma SelfQuotient(a: real, out: real, l: real)
    requires a != 0.0 && out == (a / a) * l * l
    ensures out == l * l
  {
    assert a / a == 1.0;
  }

  /**
   * Curves 0, 1 and 3 turn a negated input into a negated output; curves 2
   * and 4 give the same, strictly positive, output for an input and its
   * negation.
   */
  lemma {:induction false} SignSymmetry(m: MathLib, p: Plugin, s: Settings, x: real)
    requires Lawful(m) && InRange(s)
    ensures 0.0 < MaxVal(m, p, s.curve, s.boost) <= 1.0
    ensures var maxval := MaxVal(m, p, s.curve, s.boost);
      s.curve in {0, 1, 3} ==> SampleOut(m, p, s, maxval, -x) == -SampleOut(m, p, s, maxval, x)
    ensures var maxval := MaxVal(m, p, s.curve, s.boost);
      s.curve in {2, 4} ==>
        SampleOut(m, p, s, maxval, -x) == SampleOut(m, p, s, maxval, x) && SampleOut(m, p, s, maxval, x) > 0.0
  {
    var maxval := MaxVal(m, p, s.curve, s.boost);
    MaxValBounds(m, p, s.curve, s.boost);
    if s.curve == 0 {
      HardClipOdd(m, p, s, maxval, x);
    } else {
      ShapeParity(m, p, s.curve, x, s.boost);
      if s.curve in {1, 3} {
        SoftOdd(m, p, s, maxval, x);
      } else {
        ShapeBounds(m, p, s.curve, x, s.boost);
        SoftEven(m, p, s, maxval, x);
      }
    }
  }

  lemma {:induction false} HardClipOdd(m: MathLib, p: Plugin, s: Settings, maxval: real, x: real)
    requires SqrtLaw(m) && Divisible(s, maxval) && s.curve == 0
    ensures SampleOut(m, p, s, maxval, -x) == -SampleOut(m, p, s, maxval, x)
  {
    HardClipBodyOdd(m, p, s, x);
    OutOfBody(m, p, s, maxval, x);
    OutOfBody(m, p, s, maxval, -x);
    NegatedOut(CurveBody(m, p, s, x), CurveBody(m, p, s, -x),
      SampleOut(m, p, s, maxval, x), SampleOut(m, p, s, maxval, -x), maxval, s.normalize, s.limit);
  }

  lemma {:induction false} SoftOdd(m: MathLib, p: Plugin, s: Settings, maxval: real, x: real)
    requires SqrtLaw(m) && Divisible(s, maxval) && s.curve != 0
    requires Shape(m, p, s.curve, -x, s.boost) == -Shape(m, p, s.curve, x, s.boost)
    ensures SampleOut(m, p, s, maxval, -x) == -SampleOut(m, p, s, maxval, x)
  {
    LimitAppliedTwice(m, p, s, maxval, x);
    LimitAppliedTwice(m, p, s, maxval, -x);
    NegationScaled(Shape(m, p, s.curve, x, s.boost), Shape(m, p, s.curve, -x, s.boost), maxval, s.normalize, s.limit);
  }

  lemma {:induction false} SoftEven(m: MathLib, p: Plugin, s: Settings, maxval: real, x: real)
    requires SqrtLaw(m) && (s.normalize ==> maxval > 0.0) && s.limit > 0.0 && s.curve != 0
    requires Shape(m, p, s.curve, -x, s.boost) == Shape(m, p, s.curve, x, s.boost) > 0.0
    ensures SampleOut(m, p, s, maxval, -x) == SampleOut(m, p, s, maxval, x) > 0.0
  {
    EvenBody(m, p, s, x);
    EvenOut(m, p, s, maxval, x);
  }

  lemma {:induction false} EvenBody(m: MathLib, p: Plugin, s: Settings, x: real)
    requires SqrtLaw(m) && s.limit > 0.0 && s.curve != 0
    requires Shape(m, p, s.curve, -x, s.boost) == Shape(m, p, s.curve, x, s.boost) > 0.0
    ensures CurveBody(m, p, s, -x) == CurveBody(m, p, s, x) > 0.0
  {
    var shape := Shape(m, p, s.curve, x, s.boost);
    assert CurveBody(m, p, s, x) == shape * s.limit;
    assert CurveBody(m, p, s, -x) == shape * s.limit;
    assert shape * s.limit > 0.0;
  }

  lemma {:induction false} EvenOut(m: MathLib, p: Plugin, s: Settings, maxval: real, x: real)
    requires SqrtLaw(m) && (s.normalize ==> maxval > 0.0) && s.limit > 0.0
    requires CurveBody(m, p, s, -x) == CurveBody(m, p, s, x) > 0.0
    ensures SampleOut(m, p, s, maxval, -x) == SampleOut(m, p, s, maxval, x) > 0.0
  {
    SameBodySameOut(m, p, p, s, maxval, -x, x);
    PositiveOut(m, p, s, maxval, x);
  }

  /** The stored value depends on the sample and the plug-in only through the curve body. */
  lemma SameBodySameOut(m: MathLib, p: Plugin, q: Plugin, s: Settings, maxval: real, x: real, y: real)
    requires SqrtLaw(m) && Divisible(s, maxval) && CurveBody(m, p, s, x) == CurveBody(m, q, s, y)
    ensures SampleOut(m, p, s, maxval, x) == SampleOut(m, q, s, maxval, y)
  {
  }

  lemma {:induction false} PositiveOut(m: MathLib, p: Plugin, s: Settings, maxval: real, x: real)
    requires SqrtLaw(m) && (s.normalize ==> maxval > 0.0) && s.limit > 0.0 && CurveBody(m, p, s, x) > 0.0
    ensures SampleOut(m, p, s, maxval, x) > 0.0
  {
    var body := CurveBody(m, p, s, x);
    PositiveScaled(body, SampleOut(m, p, s, maxval, x), maxval, s.normalize, s.limit);
  }

  lemma PositiveScaled(body: real, out: real, d: real, divide: bool, l: real)
    requires body > 0.0 && (divide ==> d > 0.0) && l > 0.0
    requires out == (if divide then body / d else body) * l
    ensures out > 0.0
  {
    var q := if divide then body / d else body;
    assert q > 0.0;
  }

  lemma HardClipBodyOdd(m: MathLib, p: Plugin, s: Settings, x: real)
    requires SqrtLaw(m) && s.curve == 0
    ensures CurveBody(m, p, s, -x) == -CurveBody(m, p, s, x)
  {
    HardClipNegation(x, s.boost);
  }

  lemma NegatedOut(a: real, b: real, oa: real, ob: real, d: real, divide: bool, l: real)
    requires divide ==> d != 0.0
    requires b == -a
    requires oa == (if divide then a / d else a) * l && ob == (if divide then b / d else b) * l
    ensures ob == -oa
  {
    NegationScaled(a, b, d, divide, l);
  }

  lemma NegationScaled(a: real, b: real, d: real, divide: bool, l: real)
    requires divide ==> d != 0.0
    requires b == -a
    ensures (if divide then b / d else b) * l * l == -((if divide then a / d else a) * l * l)
    ensures (if divide then b / d else b) * l == -((if divide then a / d else a) * l)
  {
  }

  /** Without normalization no curve exceeds the limit in magnitude. */
  lemma {:induction false} UnnormalizedBound(m: MathLib, p: Plugin, s: Settings, maxval: real, x: real)
    requires Lawful(m) && InRange(s) && !s.normalize
    ensures Abs(SampleOut(m, p, s, maxval, x)) <= s.limit
  {
    if s.curve == 0 {
      HardClipLimited(m, p, s, maxval, x);
    } else {
      ShapeBounds(m, p, s.curve, x, s.boost);
      SoftLimited(m, p, s, maxval, x);
    }
  }

  lemma {:induction false} HardClipLimited(m: MathLib, p: Plugin, s: Settings, maxval: real, x: real)
    requires SqrtLaw(m) && Divisible(s, maxval) && 0.0 < s.limit <= 1.0 && s.curve == 0 && !s.normalize
    ensures Abs(SampleOut(m, p, s, maxval, x)) <= s.limit
  {
    var h := HardClip(x, s.boost);
    assert SampleOut(m, p, s, maxval, x) == h * s.limit;
    ScaledMagnitude(h, s.limit);
  }

  lemma {:induction false} SoftLimited(m: MathLib, p: Plugin, s: Settings, maxval: real, x: real)
    requires SqrtLaw(m) && Divisible(s, maxval) && 0.0 < s.limit <= 1.0 && s.curve != 0 && !s.normalize
    requires -1.0 < Shape(m, p, s.curve, x, s.boost) <= 1.0
    ensures Abs(SampleOut(m, p, s, maxval, x)) <= s.limit
  {
    var shape := Shape(m, p, s.curve, x, s.boost);
    LimitAppliedTwice(m, p, s, maxval, x);
    ScaledMagnitude(shape, s.limit);
  }

  /**
   * Silence through the normalized linear-ratio curve comes out as a
   * constant offset of (1 + boost) times the square of the limit.
   */
  lemma {:induction false} LinearRatioSilence(m: MathLib, p: Plugin, s: Settings, maxval: real)
    requires Calibrated(m, p, s, maxval) && s.curve == 4 && s.normalize
    ensures SampleOut(m, p, s, maxval, 0.0) == (1.0 + s.boost) * s.limit * s.limit
  {
    LimitAppliedTwice(m, p, s, maxval, 0.0);
    assert maxval == 1.0 / (1.0 + s.boost);
    assert Shape(m, p, 4, 0.0, s.boost) == 1.0;
  }

  /** The samples of `xs`, each transformed on its own. */
  function Samples(m: MathLib, p: Plugin, s: Settings, maxval: real, xs: seq<real>): (ys: seq<real>)
    requires SqrtLaw(m) && Divisible(s, maxval)
    ensures |ys| == |xs|
    ensures forall k :: 0 <= k < |xs| ==> ys[k] == SampleOut(m, p, s, maxval, xs[k])
  {
    if xs == [] then [] else [SampleOut(m, p, s, maxval, xs[0])] + Samples(m, p, s, maxval, xs[1..])
  }

  /**
   * Transforming a buffer piece by piece gives the same samples as
   * transforming it whole: no sample depends on another.
   */
  lemma {:induction false} SamplesAppend(m: MathLib, p: Plugin, s: Settings, maxval: real, xs: seq<real>, ys: seq<real>)
    requires SqrtLaw(m) && Divisible(s, maxval)
    ensures Samples(m, p, s, maxval, xs + ys) == Samples(m, p, s, maxval, xs) + Samples(m, p, s, maxval, ys)
  {
    if xs != [] {
      assert (xs + ys)[1..] == xs[1..] + ys;
      SamplesAppend(m, p, s, maxval, xs[1..], ys);
    }
  }

  /** The number of samples in `count` frames of `channels` channels; none when either is not positive. */
  function SampleCount(count: int, channels: int): nat {
    if count > 0 && channels > 0 then count * channels else 0
  }

  /** A buffer whose first `n` samples are transformed and whose rest is kept. */
  function Transformed(m: MathLib, p: Plugin, s: Settings, maxval: real, buf: seq<real>, n: nat): (r: seq<real>)
    requires SqrtLaw(m) && Divisible(s, maxval) && n <= |buf|
    ensures |r| == |buf|
    ensures forall k :: 0 <= k < n ==> r[k] == SampleOut(m, p, s, maxval, buf[k])
    ensures forall k :: n <= k < |buf| ==> r[k] == buf[k]
  {
    Samples(m, p, s, maxval, buf[..n]) + buf[n..]
  }

  lemma MulMonotone(a: int, b: int, c: int)
    requires 0 <= a <= b && 0 <= c
    ensures a * c <= b * c
  {
  }

  /**
   * The frame-by-channel loop: sample `j` of frame `i` sits at
   * `i * channels + j` and is replaced by the transform of its own old value.
   * `writes` lists the indices stored to, in order: each index below
   * `count * channels` exactly once, ascending.
   */
  method TransformInPlace(m: MathLib, p: Plugin, s: Settings, maxval: real, samples: array<real>, count: int, channels: int)
    returns (ghost writes: seq<int>)
    requires SqrtLaw(m) && Divisible(s, maxval)
    requires SampleCount(count, channels) <= samples.Length
    modifies samples
    ensures samples[..] == Transformed(m, p, s, maxval, old(samples[..]), SampleCount(count, channels))
    ensures |writes| == SampleCount(count, channels)
    ensures forall k :: 0 <= k < |writes| ==> writes[k] == k
  {
    ghost var before := samples[..];
    writes := [];
    var i := 0;
    while i < count
      invariant 0 <= i && (count > 0 ==> i <= count)
      invariant SampleCount(i, channels) <= SampleCount(count, channels)
      invariant forall k :: 0 <= k < SampleCount(i, channels) ==> samples[k] == SampleOut(m, p, s, maxval, before[k])
      invariant forall k :: SampleCount(i, channels) <= k < samples.Length ==> samples[k] == before[k]
      invariant |writes| == SampleCount(i, channels)
      invariant forall k :: 0 <= k < |writes| ==> writes[k] == k
    {
      ghost var base := SampleCount(i, channels);
      if channels > 0 {
        MulMonotone(i + 1, count, channels);
        assert base == i * channels;
        assert SampleCount(i + 1, channels) == base + channels;
      }
      var j := 0;
      while j < channels
        invariant 0 <= j && (channels > 0 ==> j <= channels) && (channels <= 0 ==> j == 0)
        invariant channels > 0 ==> base == i * channels && base + channels <= SampleCount(count, channels)
        invariant forall k :: 0 <= k < base + j ==> samples[k] == SampleOut(m, p, s, maxval, before[k])
        invariant forall k :: base + j <= k < samples.Length ==> samples[k] == before[k]
        invariant |writes| == base + j
        invariant forall k :: 0 <= k < |writes| ==> writes[k] == k
      {
        samples[i * channels + j] := SampleOut(m, p, s, maxval, samples[i * channels + j]);
        writes := writes + [i * channels + j];
        j := j + 1;
      }
      i := i + 1;
    }
    assert SampleCount(i, channels) == SampleCount(count, channels);
    ghost var after := Transformed(m, p, s, maxval, before, SampleCount(count, channels));
    assert samples[..] == after by {
      forall k | 0 <= k < samples.Length
        ensures samples[..][k] == after[k]
      {
      }
    }
  }
}
