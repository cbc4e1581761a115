# Nancy: computation settings, stair curves and curve JSON converters

This project is a Dafny model of four pieces of Nancy, a C# library for
network calculus in (min, +) algebra.

- **`ComputationSettings`** (module `Settings`) is the record of switches and
  thresholds passed to curve operations. The model covers:
  - its initial values;
  - the catch-all `UseParallelism` property, whose getter ORs thirteen
    parallelism switches and whose setter assigns all thirteen;
  - the `with` expression that copies the shared default and turns off
    `UseSubAdditiveConvolutionOptimizations` on the copy;
  - the static `Default()`, which creates one instance lazily, caches it in
    `_default` and hands that same instance to every later caller.

  The record's property values are one `SettingsValues` datatype, so C#
  record value-equality is `==`. A `ComputationSettings` object holds them
  in a field that its setters update in place. The laws of the catch-all
  are lemmas on `SettingsValues`: set then get, get then set, set twice,
  and nothing else changes. Both the getter and the setter leave out
  `UseParallelUpperEnvelope`, and the model keeps that:
  `SetUseParallelism(false)` leaves that switch as it was.
- **`StairCurve(a, b)`** (module `StairCurves`) is the curve
  v(t) = a · ⌈t / b⌉. It is an ultimately pseudo-periodic curve:
  - its base sequence is the first step, on [0, b);
  - its pseudo-period has start 0, length b and height a.

  The argument checks are modelled with their exception messages, and so is
  the `a == 0` branch. The supporting curve model is in module `Curves`,
  which holds the elements, the well-formed sequences, and the evaluation
  f(t) = f(t − d) + c beyond T + d. On top of that model the project proves
  that:
  - the built curve is well formed;
  - it has the value ⌈t / b⌉ · a at every t ≥ 0;
  - it never decreases;
  - it is left-continuous.
- **`StaircaseCurveConverter` and `StepCurveConverter`** are the JSON
  converters for the two curve types:
  - `CanConvert` accepts exactly the converter's type;
  - `ReadJson` looks up the rational properties in a fixed order, and a
    missing one or one that is not a rational is an error;
  - `WriteJson` refuses null and objects of other types, and writes a tagged
    object.

  The model proves:
  - the round trip in both directions;
  - that `ReadJson` ignores every other property, including the `type` tag;
  - that the two converters claim disjoint types, write different tags and
    reject each other's output.

  Module `Json` holds the part of the JSON object model they use. Module
  `CurveTypes` holds the CLR types, curve parameters and objects the
  converters exchange with the serializer.

Rationals are `real`. Exceptions are `Failure` values of a `Result`. The
exceptions the modelled code raises itself are modelled by kind and message:
`ArgumentException` with its two messages in `StairCurve`, and
`ArgumentNullException("value")`, the invalid cast and the null dereference
in the converters.

## Model

| member | source | states |
|---|---|---|
| Settings.SettingsValues.UseParallelism | Nancy/Nancy/MinPlusAlgebra/ComputationSettings.cs:14-23 | The getter is true exactly when `true` is among the thirteen covered switches. |
| Settings.SetThenGet | Nancy/Nancy/MinPlusAlgebra/ComputationSettings.cs:24-39 | After the setter, all thirteen covered switches hold the written value, and the getter reads it back. |
| Settings.SetKeepsOthers | Nancy/Nancy/MinPlusAlgebra/ComputationSettings.cs:24-39 | The setter leaves every other switch and all thresholds unchanged. This includes `UseParallelUpperEnvelope`, declared at line 50, which the setter does not cover. |
| Settings.SetTwice | Nancy/Nancy/MinPlusAlgebra/ComputationSettings.cs:24-39 | Two writes in a row leave the values the second write alone would leave. |
| Settings.GetThenSet | Nancy/Nancy/MinPlusAlgebra/ComputationSettings.cs:14-39 | Writing back what the getter read changes nothing exactly when the covered switches do not mix on and off. A mix becomes all on. |
| Settings.DefaultUsesParallelism | Nancy/Nancy/MinPlusAlgebra/ComputationSettings.cs:45-157 | Under the property initialisers, every covered switch is on, so the catch-all reads true. |
| Settings.UpperEnvelopeOutsideCatchAll | Nancy/Nancy/MinPlusAlgebra/ComputationSettings.cs:14-50 | Toggling `UseParallelUpperEnvelope` (line 50) alone never changes what the catch-all getter reads. |
| Settings.ComputationSettings.constructor | Nancy/Nancy/MinPlusAlgebra/ComputationSettings.cs:45-157 | A new record has every switch on and thresholds 2000, 50000 and 5000. |
| Settings.ComputationSettings.Copy | Nancy/Nancy/MinPlusAlgebra/ComputationSettings.cs:7 | The copy has the same property values as the original. |
| Settings.ComputationSettings.UseParallelism | Nancy/Nancy/MinPlusAlgebra/ComputationSettings.cs:14-23 | The getter on an object is true exactly when one of its covered switches is on. |
| Settings.ComputationSettings.SetUseParallelism | Nancy/Nancy/MinPlusAlgebra/ComputationSettings.cs:24-39 | The thirteen assignments give the old values with every covered switch set to `value`. |
| Settings.DefaultCache.Default | Nancy/Nancy/MinPlusAlgebra/ComputationSettings.cs:162-170 | The first call creates a fresh default instance and caches it. Each later call returns the cached instance. |
| Settings.DefaultIsShared | Nancy/Nancy/MinPlusAlgebra/ComputationSettings.cs:162-165 | Two calls of `Default()` return the same object, so a setter applied to the first result is seen through the second. |
| Settings.DefaultWithoutSubAdditiveOptimizations | Nancy/Nancy.Tests/MinPlusAlgebra/Curves/CurveMaxPlusConvolution.cs:10-13 | The result is a fresh object holding whatever the shared default holds at that moment, with `UseSubAdditiveConvolutionOptimizations` off. This holds whether or not the default was changed before. The shared default is created if it did not exist, and otherwise keeps its identity and values. |
| StairCurves.BuildSequence | Nancy/Nancy/NetworkCalculus/StairCurve.cs:26-43 | It succeeds exactly when a >= 0 and b > 0. It gives "a must be >= 0" for a < 0, and otherwise "b must be > 0" for b <= 0. On success it returns a well-formed sequence over [0, b) that is 0 at t = 0 and a on (0, b). |
| StairCurves.StairCurve | Nancy/Nancy/NetworkCalculus/StairCurve.cs:17-24 | It succeeds exactly when a >= 0 and b > 0, and otherwise fails with the sequence builder's error. On success the curve is well formed with pseudo-period (0, b, a). |
| StairCurves.StairCurveOnStep | Nancy/Nancy/NetworkCalculus/StairCurve.cs:17-43 | On its n-th step, ((n-1)b, nb], the curve has the value n·a. |
| StairCurves.CeilOnStep | Nancy/Nancy/NetworkCalculus/StairCurve.cs:10 | Every t >= 0 lies on step ⌈t/b⌉. |
| StairCurves.StairCurveValue | Nancy/Nancy/NetworkCalculus/StairCurve.cs:10-24 | The curve built for (a, b) is defined at every t >= 0, with value ⌈t/b⌉·a. |
| StairCurves.StairCurveNonDecreasing | Nancy/Nancy/NetworkCalculus/StairCurve.cs:10-24 | For 0 <= s <= t, v(s) <= v(t). |
| StairCurves.StairCurveLeftContinuous | Nancy/Nancy/NetworkCalculus/StairCurve.cs:10-24 | Every t > 0 lies on a step n >= 1 whose whole interval ((n-1)b, t] has the value v(t). |
| Curves.ZeroSequence | Nancy/Nancy/NetworkCalculus/StairCurve.cs:33-34 | The zero sequence is well formed over [from, to) and is 0 everywhere on it. |
| Json.ReadRational | Nancy/Nancy/NetworkCalculus/Json/StaircaseCurveConverter.cs:36-38 | A missing property gives a null reference exception, and a token that is not a rational gives the conversion failure, assumed to be a serialization exception. Success means the property holds exactly that rational. |
| Json.ToRational | Nancy/Nancy/NetworkCalculus/Json/StepCurveConverter.cs:35-36 | Only a rational's token converts back, to that rational. Any other token gives the conversion failure, assumed to be a serialization exception. |
| StaircaseCurveConverter.CanConvert | Nancy/Nancy/NetworkCalculus/Json/StaircaseCurveConverter.cs:26-29 | True exactly for the type `StaircaseCurve`. |
| StaircaseCurveConverter.ReadJson | Nancy/Nancy/NetworkCalculus/Json/StaircaseCurveConverter.cs:32-46 | It succeeds exactly when `delay`, `rate` and `height` all hold rationals, and the curve has those values. Otherwise the first failing lookup, in the order `delay`, `rate`, `height`, decides the error. A missing property is a null reference, and a non-rational one is the conversion failure. |
| StaircaseCurveConverter.Encode | Nancy/Nancy/NetworkCalculus/Json/StaircaseCurveConverter.cs:55-61 | The written object has the properties `type`, `delay`, `rate`, `height` in that order, tagged `staircaseCurve`. |
| StaircaseCurveConverter.WriteJson | Nancy/Nancy/NetworkCalculus/Json/StaircaseCurveConverter.cs:49-64 | Null gives `ArgumentNullException("value")` and another type gives an invalid cast. It succeeds exactly when `CanConvert` accepts the value's type, and then writes the tagged object. |
| StaircaseCurveConverter.ReadWriteRoundTrip | Nancy/Nancy/NetworkCalculus/Json/StaircaseCurveConverter.cs:32-64 | Reading what `WriteJson` wrote gives back the same curve. |
| StaircaseCurveConverter.WriteReadRoundTrip | Nancy/Nancy/NetworkCalculus/Json/StaircaseCurveConverter.cs:32-64 | Take an object with exactly the written properties, order and tag that reads successfully. Writing the curve read from it reproduces the object. |
| StaircaseCurveConverter.ReadJsonIgnoresOtherProperties | Nancy/Nancy/NetworkCalculus/Json/StaircaseCurveConverter.cs:32-46 | Inserting, at any position, a property other than the three rationals, the `type` tag included, does not change what `ReadJson` returns. |
| StepCurveConverter.CanConvert | Nancy/Nancy/NetworkCalculus/Json/StepCurveConverter.cs:25-28 | True exactly for the type `StepCurve`. |
| StepCurveConverter.ReadJson | Nancy/Nancy/NetworkCalculus/Json/StepCurveConverter.cs:31-43 | It succeeds exactly when `value` and `stepTime` hold rationals, and the curve has those values. Otherwise the first failing lookup, `value` before `stepTime`, decides the error. A missing property is a null reference, and a non-rational one is the conversion failure. |
| StepCurveConverter.Encode | Nancy/Nancy/NetworkCalculus/Json/StepCurveConverter.cs:52-57 | The written object has the properties `type`, `value`, `stepTime` in that order, tagged `stepCurve`. |
| StepCurveConverter.WriteJson | Nancy/Nancy/NetworkCalculus/Json/StepCurveConverter.cs:46-60 | Null gives `ArgumentNullException("value")` and another type gives an invalid cast. It succeeds exactly when `CanConvert` accepts the value's type. |
| StepCurveConverter.ReadWriteRoundTrip | Nancy/Nancy/NetworkCalculus/Json/StepCurveConverter.cs:31-60 | Reading what `WriteJson` wrote gives back the same curve. |
| StepCurveConverter.WriteReadRoundTrip | Nancy/Nancy/NetworkCalculus/Json/StepCurveConverter.cs:31-60 | Take an object with exactly the written properties, order and tag that reads successfully. Writing the curve read from it reproduces the object. |
| StepCurveConverter.ReadJsonIgnoresOtherProperties | Nancy/Nancy/NetworkCalculus/Json/StepCurveConverter.cs:31-43 | Inserting, at any position, a property other than the two rationals, the `type` tag included, does not change what `ReadJson` returns. |
| CurveConverters.CanConvertDisjoint | Nancy/Nancy/NetworkCalculus/Json/StepCurveConverter.cs:25-28 | No type is accepted by both converters. |
| CurveConverters.TypeCodesDiffer | Nancy/Nancy/NetworkCalculus/Json/StaircaseCurveConverter.cs:14-19 | Both converters tag under `type`, with different codes. |
| CurveConverters.StepRejectsStaircase | Nancy/Nancy/NetworkCalculus/Json/StepCurveConverter.cs:31-43 | A written staircase curve read as a step curve fails with a null reference, because it has no `value`. |
| CurveConverters.StaircaseRejectsStep | Nancy/Nancy/NetworkCalculus/Json/StaircaseCurveConverter.cs:32-46 | A written step curve read as a staircase curve fails with a null reference, because it has no `delay`. |

## Left out

- Reading and writing text is not modelled. That covers `JObject.Load(reader)`, `jo.WriteTo(writer)` and `JsonReaderException` for input that is not an object. `ReadJson` takes the loaded object and `WriteJson` returns the object it would write.
- The JSON form of `Rational` is not modelled: its converter is not part of this model. A rational is written as an abstract token, and only such a token reads back. Other tokens (strings, null, plain numbers) count as failed conversions.
- Json.ToRational: the exception a failed `ToObject<Rational>()` raises comes from that converter. The model assumes it is a `JsonSerializationException`. The modelled files do not show that kind.
- `ReadJson`'s unused parameters (`objectType`, `existingValue`, `serializer`) are dropped.
- Subclasses of `StaircaseCurve` or `StepCurve`, which the cast would accept, are not modelled.
- The `StaircaseCurve` and `StepCurve` constructors are not part of this model. `ReadJson` returns the parameters the curve is built from, without whatever checks those constructors make.
- The doc comment of `StaircaseCurveConverter` names `RateLatencyServiceCurve`. The model follows the code, which converts `StaircaseCurve`.
- `Sequence.Zero`, `Point.Origin` and `Segment.Constant` are defined outside the modelled files. They are modelled by their documented meaning: a zero point at `from` followed by a zero segment, the point (0, 0), and a flat segment.
- The general `Curve` and `Sequence` machinery is not modelled: operations, validation in constructors, infinite values, optimisation. Only well-formed finite sequences and the evaluation f(t) = f(t − d) + c are modelled. A time t < 0 is outside the curve's domain and evaluates to `None`.
- Thread safety of `_default ??= …` is not modelled: the cache is modelled for one thread.
- The auto-property setters other than `UseParallelism` are plain updates of one component of `values` and have no methods of their own. Of the `with` expressions on the shared default, the one in `CurveMaxPlusConvolution.cs` is modelled. The ones in `ConvolutionIsomorphism.Common.cs` also set isospeed switches that this version does not declare, so they are not modelled.
- The switches `UseConvolutionIsospeedOptimization` and friends, which the tests set, are not declared in this version of `ComputationSettings.cs` and are not modelled.
- What the settings switch on (parallel envelopes, convolution partitioning and so on) is not modelled. Neither is the 32-bit width of the thresholds, which are only stored.
