/**
  The JSON converter for staircase curves: an object tagged
  `"type": "staircaseCurve"` holding the rationals `delay`, `rate` and
  `height`.
*/
module StaircaseCurveConverter {
  import opened Wrappers
  import opened Json
  import opened CurveTypes

  const TypeName := "type"

  /** The code written under `TypeName` to distinguish this curve type. */
  const TypeCode := "staircaseCurve"

  const DelayName := "delay"
  const RateName := "rate"
  const HeightName := "height"

  /** `CanConvert`: this converter handles exactly the type `StaircaseCurve`. */
  function CanConvert(objectType: ClrType): (r: bool)
    ensures r <==> objectType == StaircaseCurveType
  {
    objectType == StaircaseCurveType
  }

  /**
    `ReadJson`: the three rationals are read in the order delay, rate,
    height, and the first one that is missing or not a rational stops the
    read.  The `type` property is not looked at.
  */
  function ReadJson(jo: JObject): (r: Result<StaircaseCurve, Exception>)
    ensures r.Success? <==>
      && Get(jo, DelayName).Some? && Get(jo, DelayName).value.RationalToken?
      && Get(jo, RateName).Some? && Get(jo, RateName).value.RationalToken?
      && Get(jo, HeightName).Some? && Get(jo, HeightName).value.RationalToken?
    ensures r.Success? ==>
      && Get(jo, DelayName) == Some(RationalToken(r.value.latency))
      && Get(jo, RateName) == Some(RationalToken(r.value.rate))
      && Get(jo, HeightName) == Some(RationalToken(r.value.height))
    ensures DelayName !in Names(jo) ==> r == Failure(NullReferenceException)
    ensures Get(jo, DelayName).Some? && !Get(jo, DelayName).value.RationalToken? ==> r == Failure(JsonSerializationException)
    ensures ReadRational(jo, DelayName).Success? && RateName !in Names(jo) ==> r == Failure(NullReferenceException)
    ensures r.Failure? ==> r.error in {NullReferenceException, JsonSerializationException}
    ensures ReadRational(jo, DelayName).Failure?
      ==> r == Failure(ReadRational(jo, DelayName).error)
    ensures ReadRational(jo, DelayName).Success? && ReadRational(jo, RateName).Failure?
      ==> r == Failure(ReadRational(jo, RateName).error)
    ensures ReadRational(jo, DelayName).Success? && ReadRational(jo, RateName).Success? && ReadRational(jo, HeightName).Failure?
      ==> r == Failure(ReadRational(jo, HeightName).error)
  {
    var delay :- ReadRational(jo, DelayName);
    var rate :- ReadRational(jo, RateName);
    var height :- ReadRational(jo, HeightName);
    Success(StaircaseCurve(delay, rate, height))
  }

  /** The object `WriteJson` builds for a staircase curve, properties in the order written. */
  function Encode(curve: StaircaseCurve): (jo: JObject)
    ensures Names(jo) == [TypeName, DelayName, RateName, HeightName]
    ensures Get(jo, TypeName) == Some(StringToken(TypeCode))
  {
    [Property(TypeName, StringToken(TypeCode)),
     Property(DelayName, RationalToken(curve.latency)),
     Property(RateName, RationalToken(curve.rate)),
     Property(HeightName, RationalToken(curve.height))]
  }

  /**
    `WriteJson`: null is refused with an `ArgumentNullException` for
    `value`, an object of another type fails the cast, and a staircase
    curve is written as its tagged object.
  */
  function WriteJson(value: Option<ClrObject>): (r: Result<JObject, Exception>)
    ensures value.None? ==> r == Failure(ArgumentNullException("value"))
    ensures value.Some? && TypeOf(value.value) != StaircaseCurveType ==> r == Failure(InvalidCastException)
    ensures r.Success? <==> value.Some? && CanConvert(TypeOf(value.value))
    ensures r.Success? ==> r.value == Encode(value.value.staircase)
  {
    match value
    case None => Failure(ArgumentNullException("value"))
    case Some(StaircaseCurveObject(curve)) => Success(Encode(curve))
    case Some(_) => Failure(InvalidCastException)
  }

  /** Writing a staircase curve and reading the result back gives the same curve. */
  lemma ReadWriteRoundTrip(curve: StaircaseCurve)
    ensures WriteJson(Some(StaircaseCurveObject(curve))).Success?
    ensures ReadJson(WriteJson(Some(StaircaseCurveObject(curve))).value) == Success(curve)
  {
  }

  /**
    Reading an object that has exactly the four properties `WriteJson`
    writes, in its order and with its tag, and writing the curve back gives
    the same object.
  */
  lemma WriteReadRoundTrip(jo: JObject)
    requires |jo| == 4 && jo[0] == Property(TypeName, StringToken(TypeCode))
    requires jo[1].name == DelayName && jo[2].name == RateName && jo[3].name == HeightName
    requires ReadJson(jo).Success?
    ensures WriteJson(Some(StaircaseCurveObject(ReadJson(jo).value))) == Success(jo)
  {
    var curve := ReadJson(jo).value;
    assert jo[1] == Property(DelayName, RationalToken(curve.latency)) by { GetFindsProperty(jo, 1); }
    assert jo[2] == Property(RateName, RationalToken(curve.rate)) by { GetFindsProperty(jo, 2); }
    assert jo[3] == Property(HeightName, RationalToken(curve.height)) by { GetFindsProperty(jo, 3); }
    assert jo == Encode(curve);
  }

  /**
    A property other than the three rationals, the `type` tag included,
    inserted at any position, has no effect on what `ReadJson` returns.
  */
  lemma ReadJsonIgnoresOtherProperties(jo: JObject, k: nat, p: Property)
    requires k <= |jo| && p.name !in Names(jo)
    requires p.name != DelayName && p.name != RateName && p.name != HeightName
    ensures UniqueNames(Insert(jo, k, p))
    ensures ReadJson(Insert(jo, k, p)) == ReadJson(jo)
  {
    InsertKeepsNamesUnique(jo, k, p);
    GetAfterInsert(jo, k, p, DelayName);
    GetAfterInsert(jo, k, p, RateName);
    GetAfterInsert(jo, k, p, HeightName);
  }
}
