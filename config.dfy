/**
 * What both `Create_AudioBoost` validators share: the clip properties they
 * look at, the optional script arguments and their defaults, the accepted
 * ranges, and the errors a failed check reports.
 */
module Config {
  import opened Wrappers

  /** An AviSynth audio sample type; each format is one bit. */
  type SampleType = bv32

  const SampleInt8: SampleType := 0x01
  const SampleInt16: SampleType := 0x02
  const SampleInt24: SampleType := 0x04
  const SampleInt32: SampleType := 0x08
  const SampleFloat: SampleType := 0x10

  /** The properties of the input clip that the plug-ins read. */
  datatype ClipInfo = ClipInfo(hasAudio: bool, sampleType: SampleType, channels: int)

  /** The script arguments `boost`, `limit`, `curve` and `norm`, each of which may be omitted. */
  datatype Args = Args(boost: Option<real>, limit: Option<real>, curve: Option<int>, norm: Option<bool>)

  /** One error per check, in the order the C plug-in runs them. */
  datatype ConfigError =
    | VersionTooOld
    | NoAudio
    | NotFloat
    | BoostOutOfRange
    | LimitOutOfRange
    | CurveOutOfRange

  const DefaultBoost: real := 4.0
  const DefaultLimit: real := 0.95
  const DefaultCurve: int := 1
  const DefaultNormalize: bool := true

  function BoostArg(a: Args): real { a.boost.GetOr(DefaultBoost) }
  function LimitArg(a: Args): real { a.limit.GetOr(DefaultLimit) }
  function CurveArg(a: Args): int { a.curve.GetOr(DefaultCurve) }
  function NormArg(a: Args): bool { a.norm.GetOr(DefaultNormalize) }

  /** The rejection tests, written as the sources write them. */
  predicate BoostRejected(b: real) { b < 0.5 || b > 20.0 }
  predicate LimitRejected(l: real) { l < 0.1 || l > 1.0 }
  predicate CurveRejected(c: int) { c < 0 || c > 4 }

  /** A single guard: whether it fails, and what it reports when it does. */
  datatype Check = Check(fails: bool, error: ConfigError)

  /**
   * The error of the first failing guard of a chain, or `None` when every
   * guard passes: later guards are never consulted once one has failed.
   */
  function FirstFailure(checks: seq<Check>): (r: Option<ConfigError>)
    ensures r.None? <==> forall i :: 0 <= i < |checks| ==> !checks[i].fails
    ensures r.Some? ==>
      exists i :: (0 <= i < |checks| && checks[i].fails && checks[i].error == r.value
        && forall j :: 0 <= j < i ==> !checks[j].fails)
  {
    if checks == [] then None
    else if checks[0].fails then Some(checks[0].error)
    else
      var rest := FirstFailure(checks[1..]);
      assert forall i :: 1 <= i < |checks| ==> checks[i] == checks[1..][i - 1];
      rest
  }

  /** One step of the chain: the guard at `k` decides, or passes on to the rest. */
  lemma FirstFailureStep(checks: seq<Check>, k: nat)
    requires k < |checks|
    ensures FirstFailure(checks[k..]) ==
      if checks[k].fails then Some(checks[k].error) else FirstFailure(checks[k + 1..])
  {
    assert checks[k..][1..] == checks[k + 1..];
  }

  /** Omitted arguments take their defaults; given ones are used as they are. */
  lemma Defaults(a: Args)
    ensures a.boost.None? ==> BoostArg(a) == 4.0
    ensures a.limit.None? ==> LimitArg(a) == 0.95
    ensures a.curve.None? ==> CurveArg(a) == 1
    ensures a.norm.None? ==> NormArg(a)
    ensures a.boost.Some? ==> BoostArg(a) == a.boost.value
    ensures a.limit.Some? ==> LimitArg(a) == a.limit.value
    ensures a.curve.Some? ==> CurveArg(a) == a.curve.value
    ensures a.norm.Some? ==> NormArg(a) == a.norm.value
  {
  }

  /** The defaults themselves pass every range check. */
  lemma DefaultsAccepted()
    ensures !BoostRejected(DefaultBoost) && !LimitRejected(DefaultLimit) && !CurveRejected(DefaultCurve)
  {
  }

  /**
   * The ranges are closed: both endpoints are accepted, and a value just
   * beyond either end is rejected.
   */
  lemma RangeEndpoints()
    ensures !BoostRejected(0.5) && !BoostRejected(20.0)
    ensures BoostRejected(0.4) && BoostRejected(20.1)
    ensures !LimitRejected(0.1) && !LimitRejected(1.0)
    ensures LimitRejected(0.09) && LimitRejected(1.01)
    ensures !CurveRejected(0) && !CurveRejected(4) && CurveRejected(-1) && CurveRejected(5)
  {
  }
}
