/**
  The values the curve converters exchange with the serializer: the CLR
  types they are asked about, the curve parameters they read and write, and
  the objects they are handed.
*/
module CurveTypes {

  /** The curve types the converters deal with, and any other type. */
  datatype ClrType = StaircaseCurveType | StepCurveType | OtherType(name: string)

  /** The parameters a `StaircaseCurve` is built from and exposes. */
  datatype StaircaseCurve = StaircaseCurve(latency: real, rate: real, height: real)

  /** The parameters a `StepCurve` is built from and exposes. */
  datatype StepCurve = StepCurve(value: real, stepTime: real)

  /** A non-null object handed to `WriteJson`. */
  datatype ClrObject =
    | StaircaseCurveObject(staircase: StaircaseCurve)
    | StepCurveObject(step: StepCurve)
    | OtherObject(typeName: string)

  /** `value.GetType()`. */
  function TypeOf(o: ClrObject): ClrType {
    match o
    case StaircaseCurveObject(_) => StaircaseCurveType
    case StepCurveObject(_) => StepCurveType
    case OtherObject(name) => OtherType(name)
  }
}
