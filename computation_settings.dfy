/**
  The computation settings of the min-plus operations: a record of switches
  and thresholds with mutable properties, a catch-all `UseParallelism`
  property over the parallelism switches, and a lazily created, shared
  default instance.
*/
module Settings {

  /**
    The value of a `ComputationSettings` record: one component per property,
    in declaration order.  Two records are equal exactly when these values are.
  */
  datatype SettingsValues = SettingsValues(
    useParallelLowerEnvelope: bool,
    useParallelUpperEnvelope: bool,
    useParallelListAddition: bool,
    useParallelListMinimum: bool,
    useParallelListMaximum: bool,
    useParallelListConvolution: bool,
    useParallelListLowerEnvelope: bool,
    useParallelListUpperEnvelope: bool,
    useParallelConvolution: bool,
    convolutionParallelizationThreshold: int,
    useConvolutionPartitioning: bool,
    convolutionPartitioningThreshold: int,
    useParallelComputeIntervals: bool,
    parallelComputeIntervalsThreshold: int,
    useParallelInsertionComputeIntervals: bool,
    useParallelExtend: bool,
    useParallelComputeExtensionSequences: bool,
    useParallelSortElements: bool,
    singlePassConvolution: bool,
    autoOptimize: bool,
    useSubAdditiveConvolutionOptimizations: bool,
    useMinimumSelfConvolutionForCurvesWithInfinities: bool,
    useCompositionOptimizations: bool)
  {
    /** The thirteen switches the catch-all `UseParallelism` covers, in the order of its getter. */
    function ParallelFlags(): seq<bool> {
      [useParallelLowerEnvelope, useParallelConvolution,
       useParallelListConvolution, useParallelListMinimum, useParallelListAddition, useParallelListLowerEnvelope,
       useParallelListMaximum, useParallelListUpperEnvelope,
       useParallelExtend, useParallelComputeExtensionSequences,
       useParallelComputeIntervals, useParallelInsertionComputeIntervals, useParallelSortElements]
    }

    /**
      Everything the catch-all does not touch: the remaining switches and the
      three thresholds.  Its first component, `UseParallelUpperEnvelope`, is a
      parallelism switch that the catch-all does not cover.
    */
    function Others(): OtherSettings {
      OtherSettings(
        useParallelUpperEnvelope, convolutionParallelizationThreshold, useConvolutionPartitioning,
        convolutionPartitioningThreshold, parallelComputeIntervalsThreshold, singlePassConvolution, autoOptimize,
        useSubAdditiveConvolutionOptimizations, useMinimumSelfConvolutionForCurvesWithInfinities,
        useCompositionOptimizations)
    }

    /** The getter of `UseParallelism`: true exactly when some covered switch is on. */
    function UseParallelism(): (r: bool)
      ensures r <==> true in ParallelFlags()
    {
      useParallelLowerEnvelope || useParallelConvolution ||
      useParallelListConvolution || useParallelListMinimum || useParallelListAddition || useParallelListLowerEnvelope ||
      useParallelListMaximum || useParallelListUpperEnvelope ||
      useParallelExtend || useParallelComputeExtensionSequences ||
      useParallelComputeIntervals || useParallelInsertionComputeIntervals || useParallelSortElements
    }

    /** The value after the setter of `UseParallelism`: every covered switch set to `value`. */
    function WithParallelism(value: bool): SettingsValues {
      this.(useParallelLowerEnvelope := value, useParallelConvolution := value, useParallelListConvolution := value,
        useParallelListAddition := value, useParallelListMinimum := value, useParallelListLowerEnvelope := value,
        useParallelListMaximum := value, useParallelListUpperEnvelope := value, useParallelExtend := value,
        useParallelComputeExtensionSequences := value, useParallelComputeIntervals := value, useParallelInsertionComputeIntervals := value,
        useParallelSortElements := value)
    }
  }

  /** The values of the settings other than the thirteen switches behind `UseParallelism`. */
  datatype OtherSettings = OtherSettings(
    useParallelUpperEnvelope: bool,
    convolutionParallelizationThreshold: int,
    useConvolutionPartitioning: bool,
    convolutionPartitioningThreshold: int,
    parallelComputeIntervalsThreshold: int,
    singlePassConvolution: bool,
    autoOptimize: bool,
    useSubAdditiveConvolutionOptimizations: bool,
    useMinimumSelfConvolutionForCurvesWithInfinities: bool,
    useCompositionOptimizations: bool)

  /** The property initialisers: every switch on, thresholds 2000, 50000 and 5000. */
  const DefaultValues := SettingsValues(
    true, true, true, true, true, true, true, true, true,
    2000, true, 50000, true, 5000,
    true, true, true, true, true, true, true, true, true)

  /** Default settings have parallelism on. */
  lemma DefaultUsesParallelism()
    ensures DefaultValues.UseParallelism()
    ensures forall i :: 0 <= i < |DefaultValues.ParallelFlags()| ==> DefaultValues.ParallelFlags()[i]
  {
  }

  /** Set, then get: the catch-all reads back what was written, and every covered switch holds it. */
  lemma SetThenGet(v: SettingsValues, value: bool)
    ensures v.WithParallelism(value).ParallelFlags() == seq(13, _ => value)
    ensures v.WithParallelism(value).UseParallelism() == value
  {
  }

  /** The setter leaves every other setting alone, `UseParallelUpperEnvelope` included. */
  lemma SetKeepsOthers(v: SettingsValues, value: bool)
    ensures v.WithParallelism(value).Others() == v.Others()
    ensures v.WithParallelism(value).useParallelUpperEnvelope == v.useParallelUpperEnvelope
  {
  }

  /** Set, then set again: the second write wins. */
  lemma SetTwice(v: SettingsValues, first: bool, second: bool)
    ensures v.WithParallelism(first).WithParallelism(second) == v.WithParallelism(second)
  {
  }

  /**
    Get, then set: writing back what was read changes nothing exactly when
    the covered switches do not mix on and off; a mix becomes all on.
  */
  lemma GetThenSet(v: SettingsValues)
    ensures v.WithParallelism(v.UseParallelism()) == v <==> !(true in v.ParallelFlags() && false in v.ParallelFlags())
  {
  }

  /**
    `UseParallelUpperEnvelope` is outside the catch-all: toggling it alone
    never changes what `UseParallelism` reads.
  */
  lemma UpperEnvelopeOutsideCatchAll(v: SettingsValues, x: bool)
    ensures v.(useParallelUpperEnvelope := x).UseParallelism() == v.UseParallelism()
  {
  }

  /**
    `ComputationSettings`: a record whose properties have setters.  The
    current property values are held together as one `SettingsValues`, which
    each setter updates in place.
  */
  class ComputationSettings {
    var values: SettingsValues

    /** `new ComputationSettings{}`: every property takes its initial value. */
    constructor ()
      ensures values == DefaultValues
    {
      values := DefaultValues;
    }

    /** The copy constructor a `with` expression starts from: a new record with the same values. */
    constructor Copy(original: ComputationSettings)
      ensures values == original.values
    {
      values := original.values;
    }

    /** The getter of `UseParallelism`. */
    function UseParallelism(): (r: bool)
      reads this
      ensures r <==> true in values.ParallelFlags()
    {
      values.UseParallelism()
    }

    /**
      The setter of `UseParallelism`: the thirteen covered switches are
      assigned `value`, one after the other; nothing else changes.
    */
    method SetUseParallelism(value: bool)
      modifies this
      ensures values == old(values).WithParallelism(value)
    {
      values := values.(useParallelLowerEnvelope := value);
      values := values.(useParallelConvolution := value);
      values := values.(useParallelListConvolution := value);
      values := values.(useParallelListAddition := value);
      values := values.(useParallelListMinimum := value);
      values := values.(useParallelListLowerEnvelope := value);
      values := values.(useParallelListMaximum := value);
      values := values.(useParallelListUpperEnvelope := value);
      values := values.(useParallelExtend := value);
      values := values.(useParallelComputeExtensionSequences := value);
      values := values.(useParallelComputeIntervals := value);
      values := values.(useParallelInsertionComputeIntervals := value);
      values := values.(useParallelSortElements := value);
    }
  }

  /**
    The holder of the static cache `_default`.  `Default()` creates the
    default instance on its first call and hands out that same instance on
    every later call.
  */
  class DefaultCache {
    var cached: ComputationSettings?

    constructor ()
      ensures cached == null
    {
      cached := null;
    }

    /** `Default()`: `_default ??= new ComputationSettings{}`. */
    method Default() returns (s: ComputationSettings)
      modifies this
      ensures cached == s
      ensures old(cached) == null ==> fresh(s) && s.values == DefaultValues
      ensures old(cached) != null ==> s == old(cached)
    {
      if cached == null {
        cached := new ComputationSettings();
      }
      s := cached;
    }
  }

  /**
    Because the instance is shared, a setter applied to what `Default()`
    returned is seen by every later caller of `Default()`.
  */
  method DefaultIsShared(cache: DefaultCache) returns (first: ComputationSettings, second: ComputationSettings)
    modifies cache, cache.cached
    ensures first == second
    ensures !second.UseParallelism()
  {
    first := cache.Default();
    first.SetUseParallelism(false);
    second := cache.Default();
    SetThenGet(first.values, false);
  }

  /**
    `Default() with { UseSubAdditiveConvolutionOptimizations = false }`: the
    record copies whatever the shared default holds at that moment and
    changes the copy, so the cached default, changed before or not, keeps
    its values.
  */
  method DefaultWithoutSubAdditiveOptimizations(cache: DefaultCache) returns (s: ComputationSettings)
    modifies cache
    ensures fresh(s) && cache.cached != null && cache.cached != s
    ensures old(cache.cached) == null ==> cache.cached.values == DefaultValues
    ensures old(cache.cached) != null ==>
      cache.cached == old(cache.cached) && cache.cached.values == old(cache.cached.values)
    ensures s.values == cache.cached.values.(useSubAdditiveConvolutionOptimizations := false)
  {
    var d := cache.Default();
    s := new ComputationSettings.Copy(d);
    s.values := s.values.(useSubAdditiveConvolutionOptimizations := false);
  }
}
