/**
 * The C-interface plug-in: `Create_AudioBoost` validates the arguments,
 * stores boost, limit and the normalization maximum once, and selects the
 * get-audio instantiation for the curve and the normalization flag; that
 * instantiation transforms each fetched buffer unless the fetch failed.
 */
module AudioBoostC {
  import opened Wrappers
  import opened Curves
  import opened Config
  import opened Engine

  /**
   * A created filter: the per-instance struct (boost, limit and maxval)
   * together with the curve and the normalization flag that the selected
   * instantiation was compiled for, and the channel count of the clip
   * information the filter copies from its child.
   */
  datatype Filter = Filter(settings: Settings, maxval: real, channels: int)

  /**
   * The guards of `Create_AudioBoost`, in the order they run. All of them
   * pass exactly when the host is new enough, the clip has float audio and
   * every argument is in range; each guard reports an error of its own.
   */
  function Checks(versionOk: bool, clip: ClipInfo, args: Args): (r: seq<Check>)
    ensures (forall i :: 0 <= i < |r| ==> !r[i].fails) <==>
      && versionOk && clip.hasAudio && clip.sampleType == SampleFloat
      && !BoostRejected(BoostArg(args)) && !LimitRejected(LimitArg(args)) && !CurveRejected(CurveArg(args))
    ensures forall i, j :: 0 <= i < j < |r| ==> r[i].error != r[j].error
  {
    var r := [ Check(!versionOk, VersionTooOld),
      Check(!clip.hasAudio, NoAudio),
      Check(clip.sampleType != SampleFloat, NotFloat),
      Check(BoostRejected(BoostArg(args)), BoostOutOfRange),
      Check(LimitRejected(LimitArg(args)), LimitOutOfRange),
      Check(CurveRejected(CurveArg(args)), CurveOutOfRange) ];
    assert r[0].fails == !versionOk && r[1].fails == !clip.hasAudio;
    assert r[2].fails == (clip.sampleType != SampleFloat);
    assert r[3].fails == BoostRejected(BoostArg(args)) && r[4].fails == LimitRejected(LimitArg(args));
    assert r[5].fails == CurveRejected(CurveArg(args));
    r
  }

  /**
   * The instantiation chosen for a curve index: indices 0 to 3 have their
   * own cases and every other index falls to the default, curve 4.
   */
  function SelectCurve(iCurve: int): (c: CurveId)
    ensures 0 <= iCurve <= 4 ==> c == iCurve
    ensures c == 4 <==> !(0 <= iCurve <= 3)
  {
    if 0 <= iCurve <= 3 then iCurve else 4
  }

  /**
   * The guard chain of `Create_AudioBoost`. On success the filter holds the
   * arguments (or their defaults) and the maximum of the selected curve at
   * the boost.
   */
  function Create(m: MathLib, versionOk: bool, clip: ClipInfo, args: Args): (r: Result<Filter, ConfigError>)
    requires SqrtLaw(m)
    ensures r.Success? ==> Calibrated(m, CPlugin, r.value.settings, r.value.maxval)
    ensures r.Success? ==>
      && r.value.settings.boost == BoostArg(args)
      && r.value.settings.limit == LimitArg(args)
      && r.value.settings.curve == CurveArg(args)
      && r.value.settings.normalize == NormArg(args)
      && r.value.channels == clip.channels
  {
    if !versionOk then Failure(VersionTooOld)
    else if !clip.hasAudio then Failure(NoAudio)
    else if clip.sampleType != SampleFloat then Failure(NotFloat)
    else
      var boost := BoostArg(args);
      if BoostRejected(boost) then Failure(BoostOutOfRange)
      else
        var limit := LimitArg(args);
        if LimitRejected(limit) then Failure(LimitOutOfRange)
        else
          var iCurve := CurveArg(args);
          if CurveRejected(iCurve) then Failure(CurveOutOfRange)
          else
            var normalize := NormArg(args);
            var curve := SelectCurve(iCurve);
            Success(Filter(Settings(boost, limit, curve, normalize), MaxVal(m, CPlugin, curve, boost), clip.channels))
  }

  /**
   * `Create` reports exactly the error of the first failing guard, and
   * succeeds exactly when no guard fails.
   */
  lemma {:induction false} CreateFollowsChecks(m: MathLib, versionOk: bool, clip: ClipInfo, args: Args)
    requires SqrtLaw(m)
    ensures var r := Create(m, versionOk, clip, args);
      FirstFailure(Checks(versionOk, clip, args)) == (if r.Failure? then Some(r.error) else None)
  {
    var cs := Checks(versionOk, clip, args);
    assert cs[6..] == [];
    FirstFailureStep(cs, 5);
    FirstFailureStep(cs, 4);
    FirstFailureStep(cs, 3);
    FirstFailureStep(cs, 2);
    FirstFailureStep(cs, 1);
    FirstFailureStep(cs, 0);
    assert cs[0..] == cs;
  }

  /** A filter is created exactly when every guard passes. */
  lemma {:induction false} CreateSucceeds(m: MathLib, versionOk: bool, clip: ClipInfo, args: Args)
    requires SqrtLaw(m)
    ensures Create(m, versionOk, clip, args).Success? <==>
      && versionOk && clip.hasAudio && clip.sampleType == SampleFloat
      && !BoostRejected(BoostArg(args)) && !LimitRejected(LimitArg(args)) && !CurveRejected(CurveArg(args))
  {
  }

  /**
   * Once version, audio and format pass, a boost outside [0.5, 20.0] is
   * what makes `Create` fail, before limit and curve are looked at.
   */
  lemma BoostGuard(m: MathLib, clip: ClipInfo, args: Args)
    requires SqrtLaw(m) && clip.hasAudio && clip.sampleType == SampleFloat
    ensures Create(m, true, clip, args) == Failure(BoostOutOfRange) <==> BoostRejected(BoostArg(args))
  {
  }

  /** Both boost endpoints are accepted; 0.4 and 20.1 are rejected. */
  lemma BoostEndpoints(m: MathLib, clip: ClipInfo)
    requires SqrtLaw(m) && clip.hasAudio && clip.sampleType == SampleFloat
    ensures Create(m, true, clip, Args(Some(0.5), None, None, None)).Success?
    ensures Create(m, true, clip, Args(Some(20.0), None, None, None)).Success?
    ensures Create(m, true, clip, Args(Some(0.4), None, None, None)) == Failure(BoostOutOfRange)
    ensures Create(m, true, clip, Args(Some(20.1), None, None, None)) == Failure(BoostOutOfRange)
  {
  }

  /** With every argument omitted the filter uses boost 4, limit 0.95, the tanh curve and normalization. */
  lemma DefaultFilter(m: MathLib, clip: ClipInfo)
    requires SqrtLaw(m) && clip.hasAudio && clip.sampleType == SampleFloat
    ensures Create(m, true, clip, Args(None, None, None, None))
      == Success(Filter(Settings(4.0, 0.95, 1, true), TanH(m, 4.0), clip.channels))
  {
  }

  /**
   * The selected get-audio instantiation. When the upstream fetch fails it
   * returns at once and leaves the buffer as it is; otherwise every sample
   * below `count` times the filter's channel count is replaced by its
   * transform and the rest of the buffer is kept. It always reports 0.
   */
  method GetAudio(m: MathLib, f: Filter, fetchFailed: bool, buf: array<real>, count: int)
    returns (status: int)
    requires Lawful(m) && Calibrated(m, CPlugin, f.settings, f.maxval)
    requires SampleCount(count, f.channels) <= buf.Length
    modifies buf
    ensures status == 0
    ensures fetchFailed ==> buf[..] == old(buf[..])
    ensures !fetchFailed ==>
      buf[..] == Transformed(m, CPlugin, f.settings, f.maxval, old(buf[..]), SampleCount(count, f.channels))
  {
    if fetchFailed {
      return 0;
    }
    MaxValBounds(m, CPlugin, f.settings.curve, f.settings.boost);
    ghost var writes := TransformInPlace(m, CPlugin, f.settings, f.maxval, buf, count, f.channels);
    return 0;
  }
}
