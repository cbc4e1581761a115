/**
  The JSON converter for step curves: an object tagged
  `"type": "stepCurve"` holding the rationals `value` and `stepTime`.
*/
module StepCurveConverter {
  import opened Wrappers
  import opened Json
  import opened CurveTypes

  const TypeName := "type"

  /** The code written under `TypeName` to distinguish this curve type. */
  const TypeCode := "stepCurve"

  const ValueName := "value"
  const StepTimeName := "stepTime"

  /** `CanConvert`: this converter handles exactly the type `StepCurve`. */
  function CanConvert(objectType: ClrType): (r: bool)
    ensures r <==> objectType == StepCurveType
  {
    objectType == StepCurveType
  }

  /**
    `ReadJson`: the two rationals are read in the order value, stepTime, and
    the first one that is missing or not a rational stops the read.  The
    `type` property is not looked at.
  */
  function ReadJson(jo: JObject): (r: Result<StepCurve, Exception>)
    ensures r.Success? <==>
      && Get(jo, ValueName).Some? && Get(jo, ValueName).value.RationalToken?
      && Get(jo, StepTimeName).Some? && Get(jo, StepTimeName).value.RationalToken?
    ensures r.Success? ==>
      && Get(jo, ValueName) == Some(RationalToken(r.value.value))
      && Get(jo, StepTimeName) == Some(RationalToken(r.value.stepTime))
    ensures ValueName !in Names(jo) ==> r == Failure(NullReferenceException)
    ensures Get(jo, ValueName).Some? && !Get(jo, ValueName).value.RationalToken? ==> r == Failure(JsonSerializationException)
    ensures ReadRational(jo, ValueName).Success? && StepTimeName !in Names(jo) ==> r == Failure(NullReferenceException)
    ensures r.Failure? ==> r.error in {NullReferenceException, JsonSerializationException}
    ensures ReadRational(jo, ValueName).Failure?
      ==> r == Failure(ReadRational(jo, ValueName).error)
    ensures ReadRational(jo, ValueName).Success? && ReadRational(jo, StepTimeName).Failure?
      ==> r == Failure(ReadRational(jo, StepTimeName).error)
  {
    var value :- ReadRational(jo, ValueName);
    var stepTime :- ReadRational(jo, StepTimeName);
    Success(StepCurve(value, stepTime))
  }

  /** The object `WriteJson` builds for a step curve, properties in the order written. */
  function Encode(curve: StepCurve): (jo: JObject)
    ensures Names(jo) == [TypeName, ValueName, StepTimeName]
    ensures Get(jo, TypeName) == Some(StringToken(TypeCode))
  {
    [Property(TypeName, StringToken(TypeCode)),
     Property(ValueName, RationalToken(curve.value)),
     Property(StepTimeName, RationalToken(curve.stepTime))]
  }

  /**
    `WriteJson`: null is refused with an `ArgumentNullException` for
    `value`, an object of another type fails the cast, and a step curve is
    written as its tagged object.
  */
  function WriteJson(value: Option<ClrObject>): (r: Result<JObject, Exception>)
    ensures value.None? ==> r == Failure(ArgumentNullException("value"))
    ensures value.Some? && TypeOf(value.value) != StepCurveType ==> r == Failure(InvalidCastException)
    ensures r.Success? <==> value.Some? && CanConvert(TypeOf(value.value))
    ensures r.Success? ==> r.value == Encode(value.value.step)
  {
    match value
    case None => Failure(ArgumentNullException("value"))
    case Some(StepCurveObject(curve)) => Success(Encode(curve))
    case Some(_) => Failure(InvalidCastException)
  }

  /** Writing a step curve and reading the result back gives the same curve. */
  lemma ReadWriteRoundTrip(curve: StepCurve)
    ensures WriteJson(Some(StepCurveObject(curve))).Success?
    ensures ReadJson(WriteJson(Some(StepCurveObject(curve))).value) == Success(curve)
  {
  }

  /**
    Reading an object that has exactly the three properties `WriteJson`
    writes, in its order and with its tag, and writing the curve back gives
    the same object.
  */
  lemma WriteReadRoundTrip(jo: JObject)
    requires |jo| == 3 && jo[0] == Property(TypeName, StringToken(TypeCode))
    requires jo[1].name == ValueName && jo[2].name == StepTimeName
    requires ReadJson(jo).Success?
    ensures WriteJson(Some(StepCurveObject(ReadJson(jo).value))) == Success(jo)
  {
    var curve := ReadJson(jo).value;
    assert jo[1] == Property(ValueName, RationalToken(curve.value)) by { GetFindsProperty(jo, 1); }
    assert jo[2] == Property(StepTimeName, RationalToken(curve.stepTime)) by { GetFindsProperty(jo, 2); }
    assert jo == Encode(curve);
  }

  /**
    A property other than the two rationals, the `type` tag included,
    inserted at any position, has no effect on what `ReadJson` returns.
  */
  lemma ReadJsonIgnoresOtherProperties(jo: JObject, k: nat, p: Property)
    requires k <= |jo| && p.name !in Names(jo)
    requires p.name != ValueName && p.name != StepTimeName
    ensures UniqueNames(Insert(jo, k, p))
    ensures ReadJson(Insert(jo, k, p)) == ReadJson(jo)
  {
    InsertKeepsNamesUnique(jo, k, p);
    GetAfterInsert(jo, k, p, ValueName);
    GetAfterInsert(jo, k, p, StepTimeName);
  }
}
