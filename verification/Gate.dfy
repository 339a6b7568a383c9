/** Gating a completed run against a committed baseline. */
module Gate {
  import opened Prelude
  import opened EvaluationContract

  /** One gated number: a variant's mean on a metric. */
  datatype Measure = Measure(variant: Variant, metric: string)

  datatype Summary = Summary(measure: Measure, mean: real)

  datatype Report = Report(spec: EvalRunSpec, indexFingerprints: map<Variant, Fingerprint>, metrics: seq<Summary>)

  datatype Baseline = Baseline(
    dataset: string, split: string, sampleSize: Option<nat>, seed: int, generationSampleSize: Option<nat>,
    generationVariants: seq<Variant>, generatorProfile: Option<Profile>, judgeProfiles: seq<Profile>,
    generationPromptVersion: Option<string>, judgePromptVersion: Option<string>,
    variantHashes: map<Variant, Hash>, indexFingerprints: map<Variant, Fingerprint>, metrics: map<Measure, real>)
  {
    function Variants(): set<Variant> {
      set m <- metrics :: m.variant
    }

    predicate Valid() {
      && dataset != "" && split != "" && metrics != map[]
      && (forall v <- Variants() :: v != "")
      && variantHashes.Keys == Variants() && indexFingerprints.Keys == Variants()
      && (forall v <- variantHashes :: |variantHashes[v]| == 64)
      && (forall v <- indexFingerprints :: |indexFingerprints[v]| == 64)
    }
  }

  type Thresholds = map<string, real>

  datatype GateError = InvalidBaseline | NotComparable | IndexesDiffer | MissingMetric(measure: Measure) | NothingGated

  datatype MetricResult = MetricResult(measure: Measure, baseline: real, observed: real, tolerance: real,
                                       breached: bool)

  datatype Verdict = Verdict(passed: bool, results: seq<MetricResult>)

  const EPSILON: real := 0.000000001

  // ---- Recording a baseline ----

  /** The means by measure; of several summaries for one measure the last counts. */
  function Means(metrics: seq<Summary>): map<Measure, real> {
    if metrics == [] then map[]
    else
      var last := metrics[|metrics| - 1];
      Means(metrics[..|metrics| - 1])[last.measure := last.mean]
  }

  method CollectMeans(metrics: seq<Summary>) returns (means: map<Measure, real>)
    ensures means == Means(metrics)
  {
    means := map[];
    for i := 0 to |metrics|
      invariant means == Means(metrics[..i])
    {
      assert metrics[..i + 1][..i] == metrics[..i];
      means := means[metrics[i].measure := metrics[i].mean];
    }
    assert metrics[..|metrics|] == metrics;
  }

  /** The last summary of a measure, reporting this mean. */
  ghost predicate LastReported(metrics: seq<Summary>, i: int, m: Measure, mean: real) {
    0 <= i < |metrics| && metrics[i] == Summary(m, mean) && forall j :: i < j < |metrics| ==> metrics[j].measure != m
  }

  /** A measure is recorded exactly if some summary reports it, with the mean of the last one that does. */
  lemma {:induction false} LastMeanCounts(metrics: seq<Summary>, m: Measure)
    ensures m in Means(metrics) <==> exists i :: 0 <= i < |metrics| && metrics[i].measure == m
    ensures m in Means(metrics) ==> exists i :: LastReported(metrics, i, m, Means(metrics)[m])
  {
    if metrics != [] {
      var last := |metrics| - 1;
      LastMeanCounts(metrics[..last], m);
      if metrics[last].measure == m {
        assert LastReported(metrics, last, m, Means(metrics)[m]);
      } else if m in Means(metrics[..last]) {
        var i :| LastReported(metrics[..last], i, m, Means(metrics[..last])[m]);
        assert LastReported(metrics, i, m, Means(metrics)[m]);
      }
    }
  }

  function BaselineOf(report: Report, variantHashes: map<Variant, Hash>): Baseline {
    var spec := report.spec;
    Baseline(spec.dataset, spec.split, spec.sampleSize, spec.seed, spec.generationSampleSize, spec.generationVariants,
             spec.generatorProfile, spec.judgeProfiles, spec.generationPromptVersion, spec.judgePromptVersion,
             variantHashes, report.indexFingerprints, Means(report.metrics))
  }

  /** The variants that a baseline records something for are those that some summary reports. */
  lemma ReportedVariants(report: Report, variantHashes: map<Variant, Hash>)
    ensures forall x <- report.metrics :: x.measure.variant in BaselineOf(report, variantHashes).Variants()
    ensures forall v <- BaselineOf(report, variantHashes).Variants() ::
              exists x :: x in report.metrics && x.measure.variant == v
    ensures Means(report.metrics) == map[] <==> report.metrics == []
  {
    var variants := BaselineOf(report, variantHashes).Variants();
    forall v | v in variants ensures exists x :: x in report.metrics && x.measure.variant == v {
      var m :| m in Means(report.metrics) && m.variant == v;
      LastMeanCounts(report.metrics, m);
    }
    forall x | x in report.metrics ensures x.measure.variant in variants {
      LastMeanCounts(report.metrics, x.measure);
      assert x.measure in Means(report.metrics);
    }
    if report.metrics != [] { LastMeanCounts(report.metrics, report.metrics[0].measure); }
  }

  /** These are the variants of the report's summaries. */
  predicate RecordsExactly(report: Report, variants: set<Variant>) {
    && (forall x <- report.metrics :: x.measure.variant in variants)
    && (forall v <- variants :: exists x :: x in report.metrics && x.measure.variant == v)
  }

  lemma SameVariants(report: Report, variantHashes: map<Variant, Hash>, variants: set<Variant>)
    requires RecordsExactly(report, variants)
    ensures BaselineOf(report, variantHashes).Variants() == variants
  {
    ReportedVariants(report, variantHashes);
    assert forall v :: v in BaselineOf(report, variantHashes).Variants() <==> v in variants;
  }

  method BuildBaseline(report: Report, variantHashes: map<Variant, Hash>) returns (r: Result<Baseline, GateError>)
    ensures r == if BaselineOf(report, variantHashes).Valid() then Ok(BaselineOf(report, variantHashes))
                 else Err(InvalidBaseline)
    ensures r.Ok? <==>
              && report.spec.dataset != "" && report.spec.split != "" && report.metrics != []
              && (forall x <- report.metrics :: x.measure.variant != "")
              && RecordsExactly(report, variantHashes.Keys) && RecordsExactly(report, report.indexFingerprints.Keys)
              && (forall v <- variantHashes :: |variantHashes[v]| == 64)
              && (forall v <- report.indexFingerprints :: |report.indexFingerprints[v]| == 64)
  {
    var means := CollectMeans(report.metrics);
    var spec := report.spec;
    var baseline := Baseline(
      spec.dataset, spec.split, spec.sampleSize, spec.seed, spec.generationSampleSize, spec.generationVariants,
      spec.generatorProfile, spec.judgeProfiles, spec.generationPromptVersion, spec.judgePromptVersion,
      variantHashes, report.indexFingerprints, means);
    ReportedVariants(report, variantHashes);
    if RecordsExactly(report, variantHashes.Keys) && RecordsExactly(report, report.indexFingerprints.Keys) {
      SameVariants(report, variantHashes, variantHashes.Keys);
      SameVariants(report, variantHashes, report.indexFingerprints.Keys);
    }
    if !baseline.Valid() { return Err(InvalidBaseline); }
    return Ok(baseline);
  }

  // ---- Comparing ----

  /** The two sides evaluated the same benchmark; without a sample the seed chooses nothing. */
  predicate Comparable(baseline: Baseline, spec: EvalRunSpec) {
    && baseline.dataset == spec.dataset && baseline.split == spec.split && baseline.sampleSize == spec.sampleSize
    && (spec.sampleSize.Some? ==> baseline.seed == spec.seed)
    && baseline.generationSampleSize == spec.generationSampleSize
    && baseline.generationVariants == spec.generationVariants
    && baseline.generatorProfile == spec.generatorProfile && baseline.judgeProfiles == spec.judgeProfiles
    && baseline.generationPromptVersion == spec.generationPromptVersion
    && baseline.judgePromptVersion == spec.judgePromptVersion
  }

  predicate IndexesMatch(baseline: Baseline, observed: map<Variant, Fingerprint>) {
    forall v <- baseline.indexFingerprints :: v in observed && observed[v] == baseline.indexFingerprints[v]
  }

  function Gated(baseline: Baseline, thresholds: Thresholds): set<Measure> {
    set m <- baseline.metrics | m.metric in thresholds
  }

  predicate Breached(baseline: real, observed: real, tolerance: real) {
    baseline - observed - tolerance > EPSILON
  }

  function ResultFor(baseline: Baseline, means: map<Measure, real>, thresholds: Thresholds, m: Measure): MetricResult
    requires m in baseline.metrics && m in means && m.metric in thresholds
  {
    MetricResult(m, baseline.metrics[m], means[m], thresholds[m.metric],
                 Breached(baseline.metrics[m], means[m], thresholds[m.metric]))
  }

  predicate Complete(baseline: Baseline, means: map<Measure, real>, thresholds: Thresholds) {
    forall m <- Gated(baseline, thresholds) :: m in means
  }

  /** The comparison can be made at all. */
  predicate Decidable(report: Report, baseline: Baseline, thresholds: Thresholds) {
    && Comparable(baseline, report.spec) && IndexesMatch(baseline, report.indexFingerprints)
    && Complete(baseline, Means(report.metrics), thresholds)
    && Gated(baseline, thresholds) != {}
  }

  /** No gated measure dropped by more than its tolerance. */
  predicate WithinTolerance(baseline: Baseline, means: map<Measure, real>, thresholds: Thresholds) {
    forall m <- Gated(baseline, thresholds) ::
      m in means && !Breached(baseline.metrics[m], means[m], thresholds[m.metric])
  }

  predicate MeasureLe(a: Measure, b: Measure) {
    if a.variant == b.variant then StringLe(a.metric, b.metric) else StringLe(a.variant, b.variant)
  }

  method SortedMeasures(measures: set<Measure>) returns (r: seq<Measure>)
    ensures Distinct(r) && ToSet(r) == measures && Sorted(r, MeasureLe)
  {
    var rest := measures;
    var found: seq<Measure> := [];
    while rest != {}
      invariant rest <= measures && Distinct(found) && ToSet(found) == measures - rest
      decreases |rest|
    {
      var m :| m in rest;
      DistinctAppend(found, [m]);
      assert ToSet([m]) == {m};
      found := found + [m];
      rest := rest - {m};
    }
    r := Sort(found, MeasureLe);
    SortingKeepsAll(found);
  }

  lemma MeasureOrder()
    ensures TotalPreorder(MeasureLe)
  {
    StringOrder();
  }

  lemma SortingKeepsAll(found: seq<Measure>)
    requires Distinct(found)
    ensures var r := Sort(found, MeasureLe);
            Distinct(r) && ToSet(r) == ToSet(found) && Sorted(r, MeasureLe)
  {
    MeasureOrder();
    SortMembers(found, MeasureLe);
    SortSorts(found, MeasureLe);
    DistinctByMultiset(found, Sort(found, MeasureLe));
  }

  /** The gated measures of a list, in its order. */
  function Restrict(order: seq<Measure>, thresholds: Thresholds): seq<Measure> {
    if order == [] then []
    else
      var last := order[|order| - 1];
      Restrict(order[..|order| - 1], thresholds) + (if last.metric in thresholds then [last] else [])
  }

  lemma {:induction false} RestrictMembers(order: seq<Measure>, thresholds: Thresholds)
    ensures forall m :: m in Restrict(order, thresholds) <==> m in order && m.metric in thresholds
    ensures Distinct(order) ==> Distinct(Restrict(order, thresholds))
  {
    if order != [] {
      var init, last := order[..|order| - 1], order[|order| - 1];
      RestrictMembers(init, thresholds);
      assert order == init + [last];
      DistinctLast(order);
      if Distinct(order) { AppendKeepsDistinct(Restrict(init, thresholds), init, last); }
    }
  }

  lemma {:induction false} RestrictKeepsOrder(order: seq<Measure>, thresholds: Thresholds)
    requires Sorted(order, MeasureLe)
    ensures Sorted(Restrict(order, thresholds), MeasureLe)
  {
    if order != [] {
      var init, last := order[..|order| - 1], order[|order| - 1];
      RestrictKeepsOrder(init, thresholds);
      RestrictMembers(init, thresholds);
      var kept := Restrict(init, thresholds);
      forall i | 0 <= i < |kept| ensures MeasureLe(kept[i], last) {
        assert kept[i] in kept;
      }
    }
  }

  lemma AppendKeepsDistinct(rest: seq<Measure>, init: seq<Measure>, last: Measure)
    requires Distinct(rest) && (forall m <- rest :: m in init) && last !in init
    ensures Distinct(rest + [last])
  {
    DistinctLast(rest + [last]);
    assert (rest + [last])[..|rest|] == rest;
  }

  /** The measures a list of results is about. */
  function MeasuresOf(results: seq<MetricResult>): (r: seq<Measure>)
    ensures |r| == |results| && forall i :: 0 <= i < |r| ==> r[i] == results[i].measure
  {
    seq(|results|, i requires 0 <= i < |results| => results[i].measure)
  }

  predicate CorrectResult(baseline: Baseline, means: map<Measure, real>, thresholds: Thresholds, result: MetricResult) {
    && result.measure in baseline.metrics && result.measure in means && result.measure.metric in thresholds
    && result == ResultFor(baseline, means, thresholds, result.measure)
  }

  /** The loop over sorted variants and metrics: one result for every gated measure, in order. */
  method CompareMeasures(order: seq<Measure>, baseline: Baseline, means: map<Measure, real>, thresholds: Thresholds)
    returns (r: Result<seq<MetricResult>, GateError>)
    requires forall m <- order :: m in baseline.metrics
    ensures r.Ok? <==> forall m <- order :: m.metric in thresholds ==> m in means
    ensures r.Err? ==> r.error.MissingMetric? && r.error.measure in order && r.error.measure !in means
    ensures r.Ok? ==>
              && MeasuresOf(r.value) == Restrict(order, thresholds)
              && forall i :: 0 <= i < |r.value| ==> CorrectResult(baseline, means, thresholds, r.value[i])
  {
    var results: seq<MetricResult> := [];
    for i := 0 to |order|
      invariant forall k :: 0 <= k < i ==> order[k].metric in thresholds ==> order[k] in means
      invariant MeasuresOf(results) == Restrict(order[..i], thresholds)
      invariant forall k :: 0 <= k < |results| ==> CorrectResult(baseline, means, thresholds, results[k])
    {
      var m := order[i];
      assert m in order && order[..i + 1][..i] == order[..i];
      if m.metric !in thresholds { continue; }
      if m !in means { return Err(MissingMetric(m)); }
      var result := ResultFor(baseline, means, thresholds, m);
      assert MeasuresOf(results + [result]) == MeasuresOf(results) + [m];
      results := results + [result];
    }
    assert order[..|order|] == order;
    return Ok(results);
  }

  /** A number reported for a measure and the two numbers it is compared with. */
  ghost predicate ResultOn(x: MetricResult, report: Report, baseline: Baseline, thresholds: Thresholds) {
    && x.measure in baseline.metrics && x.baseline == baseline.metrics[x.measure]
    && x.measure.metric in thresholds && x.tolerance == thresholds[x.measure.metric]
    && (exists i :: LastReported(report.metrics, i, x.measure, x.observed))
    && (x.breached <==> x.observed + x.tolerance + 0.000000001 < x.baseline)
  }

  /** Results by variant and metric, each once, each breached beyond its tolerance and the slack; passed if none is. */
  ghost predicate VerdictOn(verdict: Verdict, report: Report, baseline: Baseline, thresholds: Thresholds) {
    && (forall x <- verdict.results :: ResultOn(x, report, baseline, thresholds))
    && (forall i, j :: 0 <= i < j < |verdict.results| ==>
          var a, b := verdict.results[i].measure, verdict.results[j].measure;
          a != b && StringLe(a.variant, b.variant) && (a.variant == b.variant ==> StringLe(a.metric, b.metric)))
    && (forall m <- baseline.metrics :: m.metric in thresholds ==> m in MeasuresOf(verdict.results))
    && (verdict.passed <==> forall x <- verdict.results :: !x.breached)
  }

  lemma ReportedInOrder(results: seq<MetricResult>)
    requires Distinct(MeasuresOf(results)) && Sorted(MeasuresOf(results), MeasureLe)
    ensures forall i, j :: 0 <= i < j < |results| ==>
              var a, b := results[i].measure, results[j].measure;
              a != b && StringLe(a.variant, b.variant) && (a.variant == b.variant ==> StringLe(a.metric, b.metric))
  {
    forall i, j | 0 <= i < j < |results|
      ensures var a, b := results[i].measure, results[j].measure;
              a != b && StringLe(a.variant, b.variant) && (a.variant == b.variant ==> StringLe(a.metric, b.metric))
    {
      StringLeTotal(results[i].measure.variant, results[i].measure.variant);
      assert MeasuresOf(results)[i] != MeasuresOf(results)[j];
      assert MeasureLe(MeasuresOf(results)[i], MeasuresOf(results)[j]);
    }
  }

  lemma ResultsSpelled(report: Report, baseline: Baseline, thresholds: Thresholds, results: seq<MetricResult>)
    requires forall i :: 0 <= i < |results| ==>
               CorrectResult(baseline, Means(report.metrics), thresholds, results[i])
    requires ToSet(MeasuresOf(results)) == Gated(baseline, thresholds)
    ensures forall x <- results :: ResultOn(x, report, baseline, thresholds)
    ensures forall m <- baseline.metrics :: m.metric in thresholds ==> m in MeasuresOf(results)
  {
    forall x | x in results ensures ResultOn(x, report, baseline, thresholds) {
      LastMeanCounts(report.metrics, x.measure);
    }
    forall m | m in baseline.metrics && m.metric in thresholds ensures m in MeasuresOf(results) {
      assert m in Gated(baseline, thresholds);
      assert m in ToSet(MeasuresOf(results));
    }
  }

  /** A comparison that is made reports each gated measure once and passes exactly when none of them is breached. */
  method EvaluateGate(report: Report, baseline: Baseline, thresholds: Thresholds)
    returns (r: Result<Verdict, GateError>)
    ensures r.Ok? <==> Decidable(report, baseline, thresholds)
    ensures r == Err(NotComparable)
       <==> || baseline.dataset != report.spec.dataset || baseline.split != report.spec.split
            || baseline.sampleSize != report.spec.sampleSize
            || (report.spec.sampleSize != None && baseline.seed != report.spec.seed)
            || baseline.generationSampleSize != report.spec.generationSampleSize
            || baseline.generationVariants != report.spec.generationVariants
            || baseline.generatorProfile != report.spec.generatorProfile
            || baseline.judgeProfiles != report.spec.judgeProfiles
            || baseline.generationPromptVersion != report.spec.generationPromptVersion
            || baseline.judgePromptVersion != report.spec.judgePromptVersion
    ensures r == Err(IndexesDiffer)
       <==> r != Err(NotComparable)
            && exists v <- baseline.indexFingerprints :: v !in report.indexFingerprints
                 || report.indexFingerprints[v] != baseline.indexFingerprints[v]
    ensures r.Ok? ==> VerdictOn(r.value, report, baseline, thresholds)
    ensures r.Ok? ==>
              && Distinct(MeasuresOf(r.value.results))
              && ToSet(MeasuresOf(r.value.results)) == Gated(baseline, thresholds)
              && (forall x <- r.value.results :: CorrectResult(baseline, Means(report.metrics), thresholds, x))
              && (r.value.passed <==> WithinTolerance(baseline, Means(report.metrics), thresholds))
  {
    if !Comparable(baseline, report.spec) { return Err(NotComparable); }
    if !IndexesMatch(baseline, report.indexFingerprints) { return Err(IndexesDiffer); }
    var means := CollectMeans(report.metrics);
    var order := SortedMeasures(baseline.metrics.Keys);
    InOrder(order, baseline);
    var results := CompareMeasures(order, baseline, means, thresholds);
    CompleteInOrder(order, baseline, means, thresholds);
    if results.Err? { return Err(results.error); }
    RestrictMembers(order, thresholds);
    GatedInOrder(order, baseline, thresholds);
    if results.value == [] { return Err(NothingGated); }
    PassedMeansWithin(baseline, means, thresholds, results.value);
    RestrictKeepsOrder(order, thresholds);
    ReportedInOrder(results.value);
    ResultsSpelled(report, baseline, thresholds, results.value);
    return Ok(Verdict(forall x <- results.value :: !x.breached, results.value));
  }

  lemma InOrder(order: seq<Measure>, baseline: Baseline)
    requires ToSet(order) == baseline.metrics.Keys
    ensures forall m :: m in order <==> m in baseline.metrics
  {
    assert forall m :: m in order <==> m in ToSet(order);
  }

  lemma CompleteInOrder(order: seq<Measure>, baseline: Baseline, means: map<Measure, real>, thresholds: Thresholds)
    requires forall m :: m in order <==> m in baseline.metrics
    ensures Complete(baseline, means, thresholds) <==> forall m <- order :: m.metric in thresholds ==> m in means
  {}

  lemma GatedInOrder(order: seq<Measure>, baseline: Baseline, thresholds: Thresholds)
    requires forall m :: m in order <==> m in baseline.metrics
    requires forall m :: m in Restrict(order, thresholds) <==> m in order && m.metric in thresholds
    ensures ToSet(Restrict(order, thresholds)) == Gated(baseline, thresholds)
    ensures Restrict(order, thresholds) == [] <==> Gated(baseline, thresholds) == {}
  {
    assert ToSet(Restrict(order, thresholds)) == Gated(baseline, thresholds);
    if Restrict(order, thresholds) != [] {
      assert Restrict(order, thresholds)[0] in Gated(baseline, thresholds);
    }
  }

  lemma PassedMeansWithin(baseline: Baseline, means: map<Measure, real>, thresholds: Thresholds,
                          results: seq<MetricResult>)
    requires forall i :: 0 <= i < |results| ==> CorrectResult(baseline, means, thresholds, results[i])
    requires ToSet(MeasuresOf(results)) == Gated(baseline, thresholds)
    ensures (forall x <- results :: !x.breached) <==> WithinTolerance(baseline, means, thresholds)
  {
    if forall x <- results :: !x.breached {
      forall m | m in Gated(baseline, thresholds)
        ensures m in means && !Breached(baseline.metrics[m], means[m], thresholds[m.metric])
      {
        assert m in ToSet(MeasuresOf(results));
        var i :| 0 <= i < |results| && MeasuresOf(results)[i] == m;
        assert results[i] in results;
      }
    }
    if WithinTolerance(baseline, means, thresholds) {
      forall x | x in results ensures !x.breached {
        var i :| 0 <= i < |results| && results[i] == x;
        assert MeasuresOf(results)[i] in ToSet(MeasuresOf(results));
      }
    }
  }

  // ---- What the gate promises ----

  /**
   * A run is within tolerance of its own baseline: the comparison can be made as soon as anything is gated, with no
   * drop.
   */
  lemma OwnBaselinePasses(report: Report, variantHashes: map<Variant, Hash>, thresholds: Thresholds)
    requires forall name <- thresholds :: thresholds[name] >= 0.0
    ensures var baseline := BaselineOf(report, variantHashes);
            && (Decidable(report, baseline, thresholds) <==> Gated(baseline, thresholds) != {})
            && WithinTolerance(baseline, Means(report.metrics), thresholds)
            && forall m <- Gated(baseline, thresholds) :: Means(report.metrics)[m] - baseline.metrics[m] == 0.0
  {}

  predicate NoLower(before: map<Measure, real>, after: map<Measure, real>) {
    forall m <- before :: m in after && before[m] <= after[m]
  }

  /** Raising observed means never turns a pass into a failure, and cannot make a decidable comparison undecidable. */
  lemma RaisingMeansKeepsPassing(before: Report, after: Report, baseline: Baseline, thresholds: Thresholds)
    requires before.spec == after.spec && before.indexFingerprints == after.indexFingerprints
    requires NoLower(Means(before.metrics), Means(after.metrics))
    ensures Decidable(before, baseline, thresholds) ==> Decidable(after, baseline, thresholds)
    ensures WithinTolerance(baseline, Means(before.metrics), thresholds)
        ==> WithinTolerance(baseline, Means(after.metrics), thresholds)
  {
    forall m | m in Gated(baseline, thresholds) && m in Means(before.metrics)
      ensures m in Means(after.metrics) && Means(before.metrics)[m] <= Means(after.metrics)[m]
    {}
  }

  /** Loosening a tolerance never turns a pass into a failure either, as long as the same metrics stay gated. */
  lemma LooserTolerancesKeepPassing(baseline: Baseline, means: map<Measure, real>, strict: Thresholds,
                                    loose: Thresholds)
    requires strict.Keys == loose.Keys && forall name <- strict :: strict[name] <= loose[name]
    requires WithinTolerance(baseline, means, strict)
    ensures WithinTolerance(baseline, means, loose)
  {
    assert forall m <- Gated(baseline, loose) :: m in Gated(baseline, strict) && m.metric in strict;
  }
}
