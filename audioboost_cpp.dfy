/**
 * The C++ plug-in: `Create_AudioBoost` validates the arguments and
 * constructs an `AudioBoost` object holding them; its `GetAudio` recomputes
 * the normalization maximum on every call and transforms the fetched
 * buffer only when the clip's sample type is float. Its curves are those
 * of `CppPlugin`: curve 3 runs the helper as the preprocessor expands it.
 */
module AudioBoostCpp {
  import opened Wrappers
  import opened Curves
  import opened Config
  import opened Engine

  /**
   * The guards of `Create_AudioBoost`, in the order they run. There is no
   * version guard, and the float guard tests the float bit, not the whole
   * sample type. All of them pass exactly when the clip has audio with the
   * float bit set and every argument is in range; each guard reports an
   * error of its own.
   */
  function Checks(clip: ClipInfo, args: Args): (r: seq<Check>)
    ensures (forall i :: 0 <= i < |r| ==> !r[i].fails) <==>
      && clip.hasAudio && clip.sampleType & SampleFloat != 0
      && !BoostRejected(BoostArg(args)) && !LimitRejected(LimitArg(args)) && !CurveRejected(CurveArg(args))
    ensures forall i, j :: 0 <= i < j < |r| ==> r[i].error != r[j].error
  {
    var r := [ Check(!clip.hasAudio, NoAudio),
      Check(clip.sampleType & SampleFloat == 0, NotFloat),
      Check(BoostRejected(BoostArg(args)), BoostOutOfRange),
      Check(LimitRejected(LimitArg(args)), LimitOutOfRange),
      Check(CurveRejected(CurveArg(args)), CurveOutOfRange) ];
    assert r[0].fails == !clip.hasAudio && r[1].fails == (clip.sampleType & SampleFloat == 0);
    assert r[2].fails == BoostRejected(BoostArg(args)) && r[3].fails == LimitRejected(LimitArg(args));
    assert r[4].fails == CurveRejected(CurveArg(args));
    r
  }

  /**
   * The guard chain of `Create_AudioBoost`, up to the construction of the
   * filter object: the settings the object is built with, or the error
   * thrown by the first failing guard.
   */
  function Validate(clip: ClipInfo, args: Args): (r: Result<Settings, ConfigError>)
    ensures r.Success? ==> InRange(r.value)
    ensures r.Success? ==>
      && r.value.boost == BoostArg(args)
      && r.value.limit == LimitArg(args)
      && r.value.curve == CurveArg(args)
      && r.value.normalize == NormArg(args)
  {
    if !clip.hasAudio then Failure(NoAudio)
    else if clip.sampleType & SampleFloat == 0 then Failure(NotFloat)
    else
      var boost := BoostArg(args);
      if BoostRejected(boost) then Failure(BoostOutOfRange)
      else
        var limit := LimitArg(args);
        if LimitRejected(limit) then Failure(LimitOutOfRange)
        else
          var curve := CurveArg(args);
          if CurveRejected(curve) then Failure(CurveOutOfRange)
          else Success(Settings(boost, limit, curve, NormArg(args)))
  }

  /**
   * `Validate` reports exactly the error of the first failing guard, and
   * succeeds exactly when no guard fails.
   */
  lemma {:induction false} ValidateFollowsChecks(clip: ClipInfo, args: Args)
    ensures var r := Validate(clip, args);
      FirstFailure(Checks(clip, args)) == (if r.Failure? then Some(r.error) else None)
  {
    var cs := Checks(clip, args);
    assert cs[5..] == [];
    FirstFailureStep(cs, 4);
    FirstFailureStep(cs, 3);
    FirstFailureStep(cs, 2);
    FirstFailureStep(cs, 1);
    FirstFailureStep(cs, 0);
    assert cs[0..] == cs;
  }

  /** With every argument omitted the object gets boost 4, limit 0.95, the tanh curve and normalization. */
  lemma DefaultSettings(clip: ClipInfo)
    requires clip.hasAudio && clip.sampleType == SampleFloat
    ensures Validate(clip, Args(None, None, None, None)) == Success(Settings(4.0, 0.95, 1, true))
  {
  }

  /** Both boost endpoints are accepted; 0.4 and 20.1 are rejected. */
  lemma BoostEndpoints(clip: ClipInfo)
    requires clip.hasAudio && clip.sampleType == SampleFloat
    ensures Validate(clip, Args(Some(0.5), None, None, None)).Success?
    ensures Validate(clip, Args(Some(20.0), None, None, None)).Success?
    ensures Validate(clip, Args(Some(0.4), None, None, None)) == Failure(BoostOutOfRange)
    ensures Validate(clip, Args(Some(20.1), None, None, None)) == Failure(BoostOutOfRange)
  {
  }

  /** The `AudioBoost` object: the child clip's properties and the four validated settings. */
  class AudioBoostFilter {
    const clip: ClipInfo
    const boost: real
    const limit: real
    const curve: CurveId
    const normalize: bool

    /** The object was built from settings that passed validation. */
    predicate Valid() {
      InRange(Params())
    }

    function Params(): Settings {
      Settings(boost, limit, curve, normalize)
    }

    constructor (clip: ClipInfo, s: Settings)
      ensures this.clip == clip && Params() == s
    {
      this.clip := clip;
      boost := s.boost;
      limit := s.limit;
      curve := s.curve;
      normalize := s.normalize;
    }

    /**
     * `GetAudio` on a buffer the child has filled: the maximum is
     * recomputed from the stored boost and curve, then, for a float clip
     * only, every sample below `count * channels` is replaced by its
     * transform. Any other sample type leaves the buffer as it was.
     */
    method GetAudio(m: MathLib, buf: array<real>, count: int)
      requires Lawful(m) && Valid()
      requires SampleCount(count, clip.channels) <= buf.Length
      modifies buf
      ensures clip.sampleType == SampleFloat ==>
        buf[..] == Transformed(m, CppPlugin, Params(), MaxVal(m, CppPlugin, curve, boost), old(buf[..]),
          SampleCount(count, clip.channels))
      ensures clip.sampleType != SampleFloat ==> buf[..] == old(buf[..])
    {
      var maxval: real;
      if curve == 0 {
        maxval := 1.0;
      } else if curve == 1 {
        maxval := TanH(m, boost);
      } else if curve == 2 {
        maxval := SquareRatioSigmoid(m, boost);
      } else if curve == 3 {
        maxval := ScaledArcTanAsWritten(m, boost);
      } else {
        maxval := LinearRatioSigmoid(boost);
      }
      if clip.sampleType == SampleFloat {
        MaxValBounds(m, CppPlugin, curve, boost);
        ghost var writes := TransformInPlace(m, CppPlugin, Params(), maxval, buf, count, clip.channels);
      }
    }
  }

  /**
   * `Create_AudioBoost`: the error of the first failing guard, or a new
   * object holding the child clip's properties and the validated settings.
   */
  method Create(clip: ClipInfo, args: Args) returns (r: Result<AudioBoostFilter, ConfigError>)
    ensures r.Failure? ==> Validate(clip, args) == Failure(r.error)
    ensures r.Success? ==> fresh(r.value) && r.value.Valid()
    ensures r.Success? ==> r.value.clip == clip && Validate(clip, args) == Success(r.value.Params())
  {
    var v := Validate(clip, args);
    if v.Failure? {
      return Failure(v.error);
    }
    var f := new AudioBoostFilter(clip, v.value);
    return Success(f);
  }
}
