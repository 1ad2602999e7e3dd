/**
 * How the two plug-ins relate: they accept the same arguments and build the
 * same settings, and differ in three places: the version guard, how they
 * test for float samples, and curve 3, which the C++ plug-in computes at a
 * quarter of the C value.
 */
module Variants {
  import opened Wrappers
  import opened Curves
  import opened Config
  import opened Engine
  import AudioBoostC
  import AudioBoostCpp

  /**
   * Whatever the C plug-in accepts, the C++ plug-in accepts with the same
   * settings. The maximum the C plug-in stores is the one the C++
   * `GetAudio` recomputes, except on curve 3, where the C++ maximum is a
   * quarter of it. For a clip whose sample type is exactly float, and a host
   * that passes the version check, the converse holds too.
   */
  lemma {:induction false} SameSettings(m: MathLib, versionOk: bool, clip: ClipInfo, args: Args)
    requires SqrtLaw(m)
    ensures var c := AudioBoostC.Create(m, versionOk, clip, args);
      c.Success? ==>
        && AudioBoostCpp.Validate(clip, args) == Success(c.value.settings)
        && c.value.maxval == MaxVal(m, CPlugin, c.value.settings.curve, c.value.settings.boost)
    ensures var c := AudioBoostC.Create(m, versionOk, clip, args);
      c.Success? && c.value.settings.curve != 3 ==>
        MaxVal(m, CppPlugin, c.value.settings.curve, c.value.settings.boost) == c.value.maxval
    ensures var c := AudioBoostC.Create(m, versionOk, clip, args);
      c.Success? && c.value.settings.curve == 3 ==>
        MaxVal(m, CppPlugin, c.value.settings.curve, c.value.settings.boost) == c.value.maxval / 4.0
    ensures versionOk && clip.sampleType == SampleFloat && AudioBoostCpp.Validate(clip, args).Success? ==>
      AudioBoostC.Create(m, versionOk, clip, args) == Success(AudioBoostC.Filter(
        AudioBoostCpp.Validate(clip, args).value,
        MaxVal(m, CPlugin, AudioBoostCpp.Validate(clip, args).value.curve, BoostArg(args)),
        clip.channels))
  {
    assert SampleFloat & SampleFloat != 0;
    var c := AudioBoostC.Create(m, versionOk, clip, args);
    if c.Success? {
      MaxValPlugins(m, c.value.settings.curve, c.value.settings.boost);
    }
  }

  /**
   * The two plug-ins store the same value for every sample, except on
   * curve 3 without normalization, where the C++ value is a quarter of the
   * C value; with normalization the quarter appears in both the curve and
   * the maximum and cancels.
   */
  lemma {:induction false} PluginOutputs(m: MathLib, s: Settings, x: real)
    requires Lawful(m) && InRange(s)
    ensures 0.0 < MaxVal(m, CPlugin, s.curve, s.boost) && 0.0 < MaxVal(m, CppPlugin, s.curve, s.boost)
    ensures s.curve != 3 || s.normalize ==>
      SampleOut(m, CppPlugin, s, MaxVal(m, CppPlugin, s.curve, s.boost), x)
        == SampleOut(m, CPlugin, s, MaxVal(m, CPlugin, s.curve, s.boost), x)
    ensures s.curve == 3 && !s.normalize ==>
      SampleOut(m, CppPlugin, s, MaxVal(m, CppPlugin, s.curve, s.boost), x)
        == SampleOut(m, CPlugin, s, MaxVal(m, CPlugin, s.curve, s.boost), x) / 4.0
  {
    MaxValBounds(m, CPlugin, s.curve, s.boost);
    MaxValBounds(m, CppPlugin, s.curve, s.boost);
    if s.curve == 3 {
      Curve3Outputs(m, s, x);
    } else {
      SharedCurveOutputs(m, s, x);
    }
  }

  lemma {:induction false} SharedCurveOutputs(m: MathLib, s: Settings, x: real)
    requires SqrtLaw(m) && s.curve != 3 && MaxVal(m, CPlugin, s.curve, s.boost) != 0.0
    ensures MaxVal(m, CppPlugin, s.curve, s.boost) == MaxVal(m, CPlugin, s.curve, s.boost)
    ensures SampleOut(m, CppPlugin, s, MaxVal(m, CppPlugin, s.curve, s.boost), x)
      == SampleOut(m, CPlugin, s, MaxVal(m, CPlugin, s.curve, s.boost), x)
  {
    MaxValPlugins(m, s.curve, s.boost);
    if s.curve != 0 {
      ShapePlugins(m, s.curve, x, s.boost);
      BodyOfShape(m, CPlugin, s, x);
      BodyOfShape(m, CppPlugin, s, x);
    }
    SameBodySameOut(m, CppPlugin, CPlugin, s, MaxVal(m, CPlugin, s.curve, s.boost), x, x);
  }

  lemma {:induction false} Curve3Outputs(m: MathLib, s: Settings, x: real)
    requires SqrtLaw(m) && s.curve == 3 && MaxVal(m, CPlugin, s.curve, s.boost) != 0.0
    ensures MaxVal(m, CppPlugin, s.curve, s.boost) != 0.0
    ensures s.normalize ==>
      SampleOut(m, CppPlugin, s, MaxVal(m, CppPlugin, s.curve, s.boost), x)
        == SampleOut(m, CPlugin, s, MaxVal(m, CPlugin, s.curve, s.boost), x)
    ensures !s.normalize ==>
      SampleOut(m, CppPlugin, s, MaxVal(m, CppPlugin, s.curve, s.boost), x)
        == SampleOut(m, CPlugin, s, MaxVal(m, CPlugin, s.curve, s.boost), x) / 4.0
  {
    MaxValPlugins(m, s.curve, s.boost);
    ShapePlugins(m, s.curve, x, s.boost);
    LimitAppliedTwice(m, CPlugin, s, MaxVal(m, CPlugin, s.curve, s.boost), x);
    LimitAppliedTwice(m, CppPlugin, s, MaxVal(m, CppPlugin, s.curve, s.boost), x);
    QuarterScaled(Shape(m, CPlugin, s.curve, x, s.boost), MaxVal(m, CPlugin, s.curve, s.boost), s.limit,
      s.normalize, Shape(m, CppPlugin, s.curve, x, s.boost), MaxVal(m, CppPlugin, s.curve, s.boost));
  }

  /**
   * A factor of 1/4 on both a value and its divisor cancels in their
   * quotient, and carries through to the result when there is no quotient.
   */
  lemma QuarterScaled(a: real, d: real, l: real, divide: bool, q: real, e: real)
    requires d != 0.0 && q == a / 4.0 && e == d / 4.0
    ensures divide ==> (q / e) * l * l == (a / d) * l * l
    ensures !divide ==> q * l * l == a * l * l / 4.0
  {
    if divide {
      assert q / e == a / d;
    }
  }

  /**
   * Any sample type with the float bit and another bit set passes the C++
   * format guard but not the C one; the C++ `GetAudio` then leaves the
   * buffer untouched, because there the test is equality.
   */
  lemma MixedFlagsDiffer(m: MathLib, clip: ClipInfo, args: Args)
    requires SqrtLaw(m)
    requires clip.hasAudio && clip.sampleType & SampleFloat != 0 && clip.sampleType != SampleFloat
    requires !BoostRejected(BoostArg(args)) && !LimitRejected(LimitArg(args)) && !CurveRejected(CurveArg(args))
    ensures AudioBoostC.Create(m, true, clip, args) == Failure(NotFloat)
    ensures AudioBoostCpp.Validate(clip, args).Success?
  {
  }

  /** Every single-format sample type other than float is rejected by both plug-ins. */
  lemma IntegerFormatsRejected(m: MathLib, versionOk: bool, clip: ClipInfo, args: Args)
    requires SqrtLaw(m) && versionOk && clip.hasAudio
    requires clip.sampleType in {SampleInt8, SampleInt16, SampleInt24, SampleInt32}
    ensures AudioBoostC.Create(m, versionOk, clip, args) == Failure(NotFloat)
    ensures AudioBoostCpp.Validate(clip, args) == Failure(NotFloat)
  {
  }
}
