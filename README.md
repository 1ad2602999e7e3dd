# AudioBoost in Dafny

AudioBoost is an AviSynth audio filter: a soft-clip "dynamic compressor". It
multiplies every float sample by a boost factor and passes the product through
one of five curves:

- 0, hard clip;
- 1, hyperbolic tangent;
- 2, square-ratio sigmoid;
- 3, scaled arctangent;
- 4, linear-ratio sigmoid.

Optionally it divides the result by the curve's value at full scale (the
normalization maximum, `maxval`). It then scales the result by a limit factor.

The repository ships the filter twice:

- `AudioBoost_c.cpp`, a C-interface plug-in. It validates the arguments and
  computes `maxval` once, when the filter is created. It then picks a get-audio
  instantiation compiled for the chosen curve and normalization flag.
- `AudioBoost.cpp`, a C++ plug-in. It stores the validated settings in an
  object. Every `GetAudio` call recomputes `maxval` and transforms the buffer
  only when the clip's sample type is float.

The model works over `real`. Each libm function the curves call (`tanh`,
`atan`, `sqrt`) is a field of a `MathLib` value. A `MathLib` is kept abstract
apart from the laws the proofs need:

- `tanh` and `atan` are bounded, odd and positive on positive inputs;
- `sqrt` is the non-negative square root.

Modules:

- `Config`: arguments, defaults, ranges, errors, and the first-failure
  semantics of a guard chain.
- `Curves`: the five curves and `maxval`, for each plug-in. A `Plugin`
  value says whose helpers are meant: the C++ plug-in's curve 3 is its
  helper as the preprocessor expands it, a quarter of the C curve.
- `Engine`: the per-sample transform and the in-place pass over the
  interleaved buffer. `Engine.TransformInPlace` is a method with nested loops
  over frames and channels that rewrites an `array<real>`.
- `AudioBoostC`: the C plug-in. `Create` is a pure guard chain returning the
  filter's settings and `maxval`; `GetAudio` transforms the buffer in place.
- `AudioBoostCpp`: the C++ plug-in. `AudioBoostFilter` is a class whose fields
  the constructor sets. Its `GetAudio` method rewrites the buffer with the
  C++ curves.
- `Variants`: how the two plug-ins agree and where they differ.

The model follows the code in three places where a symmetric soft-clip
compressor would be expected to behave differently:

- for curves 1 to 4 the limit is multiplied in twice, once inside the curve
  expression and once when the sample is stored; curve 0 gets it once
  (`Engine.LimitAppliedTwice`, `Engine.HardClipOutput`);
- `maxval` is the curve at a sample of 1 times the boost, so with
  normalization a sample of 1.0, not a sample whose boosted value is 1, comes
  out at limit squared (`Engine.FullScale`);
- curves 2 and 4 are even functions of the sample. The sign of the input is
  lost and their output is strictly positive (`Engine.SignSymmetry`). Silence
  on curve 4 with normalization comes out as `(1 + boost)·limit²`
  (`Engine.LinearRatioSilence`).

## Model

| member | source | states |
|---|---|---|
| Curves.HardClip | AudioBoost.cpp:68-70 | the clipped value has magnitude at most 1, has the sign of the sample for a positive boost, equals the boosted magnitude while that is at most 1, and has magnitude exactly 1 once the boosted magnitude reaches 1 |
| Curves.LinearRatioSigmoid | AudioBoost.cpp:101-103 | `1/(1+|v|)` lies in (0, 1] and is 1 exactly at v = 0 |
| Curves.TanH | AudioBoost.cpp:92-95 | under the tanh law the curve lies strictly between -1 and 1 and has the sign of its argument |
| Curves.ScaledArcTan | AudioBoost_c.cpp:47-48 | under the atan law the arctangent scaled by pi/2 in and out lies strictly between -1 and 1 and has the sign of its argument |
| Curves.ScaledArcTanAsWritten | AudioBoost.cpp:97-99 | the C++ helper, with its divisor expanded as `/pi/2`, is exactly a quarter of the scaled arctangent |
| Curves.AsWrittenFallsShort | AudioBoost.cpp:97-99 | the expanded helper stays within (-1/4, 1/4) and differs from the intended curve at 1 |
| Curves.SquareRatioSigmoid | AudioBoost.cpp:105-107 | for a square root, `1/sqrt(1+v²)` lies in (0, 1] and is 1 at v = 0 |
| Curves.Shape | AudioBoost_c.cpp:40-50 | the even curves 2 and 4 lie in (0, 1] for every sample and boost |
| Curves.ShapePlugins | AudioBoost.cpp:72-83 | the C++ plug-in's curves equal the C plug-in's, except curve 3, which is a quarter of the C value |
| Curves.ShapeBounds | AudioBoost_c.cpp:40-50 | every soft curve value lies in (-1, 1]; curves 1 and 3 keep the sign of the boosted sample; curves 2 and 4 are strictly positive |
| Curves.ShapeParity | AudioBoost.cpp:73-82 | negating the sample negates curves 1 and 3 and leaves curves 2 and 4 unchanged |
| Curves.MaxVal | AudioBoost_c.cpp:125-132 | `maxval` is 1 for the hard clip and otherwise the plug-in's selected curve evaluated at a full-scale sample, i.e. at the boost |
| Curves.MaxValPlugins | AudioBoost.cpp:45-61 | the `maxval` the C++ `GetAudio` recomputes equals the C plug-in's, except on curve 3, where it is a quarter of it |
| Curves.MaxValBounds | AudioBoost.cpp:45-61 | for a positive boost `maxval` lies in (0, 1], so the normalizing division never divides by zero |
| Curves.OddCurves | AudioBoost.cpp:68-99 | the hard clip is odd for every boost, and under their laws tanh and the scaled arctangent are odd |
| Curves.EvenCurves | AudioBoost.cpp:101-107 | both ratio sigmoids give the same value for v and -v |
| Engine.CurveBody | AudioBoost_c.cpp:33-51 | the hard clip stays within magnitude 1, and the even curves are strictly positive for a positive limit |
| Engine.SampleOut | AudioBoost_c.cpp:33-56 | on the even curves the stored value is strictly positive for a positive limit and, when normalizing, a positive `maxval` |
| Engine.HardClipOutput | AudioBoost_c.cpp:37-56 | curve 0 outputs the clipped sample times the limit once: magnitude at most the limit, the sign of the input, and normalization by `maxval` = 1 changes nothing |
| Engine.LimitAppliedTwice | AudioBoost_c.cpp:41-56 | for curves 1 to 4 the output is the curve at the boosted sample, divided by `maxval` when normalizing, times the limit twice |
| Engine.FullScale | AudioBoost.cpp:45-86 | for validated settings `maxval` is in (0, 1], and with normalization a sample of 1.0 comes out at limit² for curves 1 to 4 and at min(boost, 1)·limit for curve 0 |
| Engine.SignSymmetry | AudioBoost.cpp:66-86 | for validated settings and their `maxval`, the output for -x is minus the output for x on curves 0, 1 and 3, and equals the (positive) output for x on curves 2 and 4 |
| Engine.UnnormalizedBound | AudioBoost_c.cpp:37-56 | without normalization every output has magnitude at most the limit |
| Engine.LinearRatioSilence | AudioBoost_c.cpp:49-56 | a silent sample on curve 4 with normalization comes out as (1 + boost)·limit², not silence |
| Engine.Samples | AudioBoost_c.cpp:29-56 | transforming a sequence of samples keeps its length and maps each sample on its own |
| Engine.SamplesAppend | AudioBoost_c.cpp:29-31 | the transform of a concatenation is the concatenation of the transforms, so frames can be processed one after another |
| Engine.Transformed | AudioBoost_c.cpp:29-56 | the buffer after the pass: each position below count·channels holds the transform of its own old value; every later position is unchanged |
| Engine.TransformInPlace | AudioBoost_c.cpp:29-58 | the nested frame/channel loop leaves the array equal to `Transformed` of its old contents, writing each index below count·channels exactly once and in order |
| Config.FirstFailure | AudioBoost_c.cpp:99-121 | the result is empty exactly when no guard fails; otherwise it is the error of a failing guard with every earlier guard passing |
| Config.FirstFailureStep | AudioBoost.cpp:112-128 | a guard chain is decided by its first guard when that fails and by the rest of the chain otherwise |
| Config.Defaults | AudioBoost_c.cpp:106-123 | omitted arguments become boost 4.0, limit 0.95, curve 1 and normalize true; given arguments are used as they are |
| Config.DefaultsAccepted | AudioBoost.cpp:118-130 | the defaults pass every range check |
| Config.RangeEndpoints | AudioBoost_c.cpp:108-121 | boost [0.5, 20], limit [0.1, 1] and curve 0..4 are closed ranges: both ends are accepted and values just outside are rejected |
| AudioBoostC.Checks | AudioBoost_c.cpp:99-121 | the guards all pass exactly when the host is new enough, the clip has audio in exactly the float format and boost, limit and curve are in range; no two guards report the same error |
| AudioBoostC.SelectCurve | AudioBoost_c.cpp:140-147 | a validated index selects its own instantiation; only indices outside 0..3 reach the default case, curve 4 |
| AudioBoostC.Create | AudioBoost_c.cpp:75-132 | a created filter holds the given or default arguments, validated ranges, the `maxval` of its curve at its boost, and the channel count of its clip |
| AudioBoostC.CreateFollowsChecks | AudioBoost_c.cpp:99-121 | creation fails with exactly the error of the first failing guard, in the order version, audio, float format, boost, limit, curve, and succeeds exactly when none fails |
| AudioBoostC.CreateSucceeds | AudioBoost_c.cpp:99-123 | a filter is created if and only if the version is new enough, the clip has float audio and all three arguments are in range |
| AudioBoostC.BoostGuard | AudioBoost_c.cpp:106-109 | once version, audio and format pass, creation fails on the boost exactly when the boost is out of range |
| AudioBoostC.BoostEndpoints | AudioBoost_c.cpp:106-109 | boosts 0.5 and 20.0 are accepted; 0.4 and 20.1 are rejected |
| AudioBoostC.DefaultFilter | AudioBoost_c.cpp:106-128 | with no arguments the filter uses boost 4, limit 0.95, tanh with normalization, and `maxval` = tanh(4) |
| AudioBoostC.GetAudio | AudioBoost_c.cpp:14-61 | returns 0; leaves the buffer unchanged when the upstream fetch fails; otherwise rewrites it as `Transformed` over `count` frames of the filter's own channel count |
| AudioBoostCpp.Checks | AudioBoost.cpp:112-128 | the guards all pass exactly when the clip has audio whose sample type has the float bit and boost, limit and curve are in range; no two guards report the same error |
| AudioBoostCpp.Validate | AudioBoost.cpp:109-130 | validated settings are the given or default arguments and lie in range |
| AudioBoostCpp.ValidateFollowsChecks | AudioBoost.cpp:112-128 | validation fails with exactly the error of the first failing guard, in the order audio, float flag, boost, limit, curve, and succeeds exactly when none fails |
| AudioBoostCpp.DefaultSettings | AudioBoost.cpp:118-130 | with no arguments the object gets boost 4, limit 0.95, curve 1 and normalization |
| AudioBoostCpp.BoostEndpoints | AudioBoost.cpp:118-120 | boosts 0.5 and 20.0 are accepted; 0.4 and 20.1 are rejected |
| AudioBoostCpp.AudioBoostFilter.constructor | AudioBoost.cpp:33-38 | the object stores the child clip and exactly the four settings it is given |
| AudioBoostCpp.AudioBoostFilter.GetAudio | AudioBoost.cpp:40-90 | for a float clip the buffer becomes `Transformed` under the C++ curves (curve 3 as the macro expands it) and the `maxval` recomputed from boost and curve; any other sample type leaves it exactly as fetched |
| AudioBoostCpp.Create | AudioBoost.cpp:109-131 | fails with the validation error, or returns a new valid object holding the clip and the validated settings |
| Variants.SameSettings | AudioBoost.cpp:112-130 | whatever the C plug-in creates, the C++ validator accepts with the same settings; the C++ `GetAudio` recomputes the C `maxval` on curves 0, 1, 2 and 4 and a quarter of it on curve 3; for an exactly-float clip and a new enough host the converse holds |
| Variants.PluginOutputs | AudioBoost.cpp:56-86 | for validated settings both `maxval`s are positive, and the two plug-ins store the same value for every sample except on curve 3 without normalization, where the C++ value is a quarter of the C value |
| Variants.MixedFlagsDiffer | AudioBoost.cpp:115-116 | for any clip with audio whose sample type has the float bit and another bit set, and in-range arguments, the C plug-in fails with the not-float error while C++ validation succeeds |
| Variants.IntegerFormatsRejected | AudioBoost_c.cpp:103-104 | for any clip with audio whose sample type is one of the four integer formats, both plug-ins fail with the not-float error |

## Left out

- The AviSynth host is not modelled: `avs_new_c_filter`, `avs_release_clip`, `avs_new_value_clip`, the error values and their message strings, and plug-in registration (AudioBoost_c.cpp:154-159, AudioBoost.cpp:133-139). Errors are a `ConfigError` value.
- The upstream fetch (`avs_get_audio`, `child->GetAudio`) is not modelled. The buffer arrives already filled, and the C plug-in's fetch result is a `fetchFailed` flag.
- The unused `start` argument and the environment pointer of `GetAudio` are not modelled.
- Cache hints and the multithreading mode (AudioBoost_c.cpp:70-73) are host concurrency metadata.
- `free_AudioBoost` (AudioBoost_c.cpp:63-68) is memory management. The struct allocated at AudioBoost_c.cpp:86 is never released on the error paths; the model has no heap for it.
- The AviSynth version check (AudioBoost_c.cpp:99-100) is a boolean input `versionOk`.
- IEEE-754 single precision is not modelled: rounding, NaN and infinity, `-0.0`, the double-to-float casts of the arguments, the `0.95f` literal and the precision in which the float libm functions compute. All arithmetic is over `real`, and `Pi` is the decimal constant both sources write.
- Exact values of `tanh`, `atan` and `sqrt` are not modelled. Only the laws in `Curves.TanhLaw`, `Curves.AtanLaw` and `Curves.SqrtLaw` are kept, so no numeric closeness is stated.
- `int` overflow of `i*channels` and the `int` loop counter against the 64-bit `count` are not modelled. The precondition bounds `count*channels` by the buffer length.
- Template instantiation and function-pointer selection (AudioBoost_c.cpp:14, 140-147) become `AudioBoostC.SelectCurve` and the curve field of the settings.
- The C++ `GetAudio` leaves `val` and `maxval` uninitialised for a curve outside 0..4. Validation makes that case unreachable, and the model's curve type `CurveId` excludes it.

## Findings

| source | as written | input that shows it | evidently intended | confidence | as-written member | corrected member |
|---|---|---|---|---|---|---|
| AudioBoost.cpp:17, 97-99 | `HalfPi` is defined as `M_PI/2.0f` without parentheses, so `atan(val*HalfPi)/HalfPi` divides by pi and then by 2 | val = 1 (any non-zero val): the result is a quarter of the scaled arctangent; without normalization curve 3 outputs a quarter of what the C plug-in outputs | divide by pi/2, as AudioBoost_c.cpp:5 and 48 do, so the curve fills (-1, 1) | high, not executed | Curves.ScaledArcTanAsWritten, shown by Curves.AsWrittenFallsShort | Curves.ScaledArcTan, whose contract gives the range (-1, 1) and the sign |

The argument `val*HalfPi` expands to `val*M_PI/2.0f`, which is still
`val·pi/2`. Only the divisor is wrong. The model of the C++ plug-in runs the
helper as written (`Curves.Shape` and `Curves.MaxVal` for `CppPlugin`); the
C plug-in runs its own curve, which is the intended one. With normalization the factor of 1/4
appears in both the sample and `maxval` and cancels; without it, curve 3 of
the C++ plug-in stores a quarter of what the C plug-in stores
(`Variants.PluginOutputs`).
