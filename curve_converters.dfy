/**
  How the two curve converters relate when both are registered with one
  serializer: they claim disjoint types, they write different tags, and
  neither reads what the other writes.
*/
module CurveConverters {
  import opened Wrappers
  import opened Json
  import opened CurveTypes
  import Staircase = StaircaseCurveConverter
  import Step = StepCurveConverter

  /** No type is claimed by both converters. */
  lemma CanConvertDisjoint(objectType: ClrType)
    ensures !(Staircase.CanConvert(objectType) && Step.CanConvert(objectType))
  {
  }

  /** The two converters write different tags under the same tag name. */
  lemma TypeCodesDiffer()
    ensures Staircase.TypeName == Step.TypeName
    ensures Staircase.TypeCode != Step.TypeCode
  {
  }

  /** Reading a written staircase curve as a step curve fails: it has no `value` property. */
  lemma StepRejectsStaircase(curve: StaircaseCurve)
    ensures Step.ReadJson(Staircase.Encode(curve)) == Failure(NullReferenceException)
  {
  }

  /** Reading a written step curve as a staircase curve fails: it has no `delay` property. */
  lemma StaircaseRejectsStep(curve: StepCurve)
    ensures Staircase.ReadJson(Step.Encode(curve)) == Failure(NullReferenceException)
  {
  }
}
