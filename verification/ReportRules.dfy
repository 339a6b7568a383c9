/** How the report's summaries and comparisons are made: means, percentiles, and intervals from a seeded bootstrap. */
module ReportRules {
  import opened Prelude
  import opened GenerationContract
  import opened EvaluationContract
  import opened Statistics
  import opened LabelScores
  import opened Aggregation
  import opened Reporting

  const MACRO_F1: string := "scifact_macro_f1"
  const MEDIAN: real := 0.5
  const HIGH_LATENCY: real := 0.95

  /** One generator for every pair of names and every sample size, as the derived seeds provide. */
  type Randomness = (string, string, nat) -> Draws

  ghost predicate Fair(random: Randomness) {
    forall name, metric, count :: count > 0 ==> ValidDraws(random(name, metric, count), count)
  }

  type FairRandomness = random: Randomness | Fair(random) ghost witness (_, _, _) => (_, _) => 0

  type Metric = MetricSummary<Variant, string>

  function Checked<T>(r: Result<T, StatisticsError>): Outcome<T> {
    if r.Ok? then Ok(r.value) else Err(BadStatistics(r.error))
  }

  // ---- Summaries ----

  function Summary(variant: Variant, metric: string, values: seq<real>, random: FairRandomness, resamples: int)
    : Outcome<Metric>
  {
    var interval := Checked(MeanInterval(values, random(variant, metric, |values|), resamples));
    var mean := Checked(Mean(values));
    if interval.Err? then Err(interval.error)
    else if mean.Err? then Err(mean.error)
    else Ok(MetricSummary(metric, variant, mean.value, interval.value, |values|))
  }

  /** A required metric needs one value for each query. */
  function RequiredSummary(variant: Variant, metric: string, values: seq<real>, each: int, random: FairRandomness,
                           resamples: int): Outcome<Metric>
  {
    if |values| != each then Err(WrongVariantCount)
    else Summary(variant, metric, Sort(values, RealLe), random, resamples)
  }

  function Latency(variant: Variant, stage: string, durations: seq<real>): Outcome<LatencySummary<Variant, string>> {
    var median, high := Checked(Percentile(durations, MEDIAN)), Checked(Percentile(durations, HIGH_LATENCY));
    if median.Err? then Err(median.error)
    else if high.Err? then Err(high.error)
    else Ok(LatencySummary(variant, stage, median.value, high.value, |durations|))
  }

  // ---- The score over labels ----

  function VerifiedRows(results: seq<QueryResult>, variant: Variant): seq<QueryResult> {
    Gathered(results, variant, (r: QueryResult) => if Verified(r) then [r] else [])
  }

  function GoldLabel(row: QueryResult): Outcome<SciFactLabel> {
    if row.goldLabel.Some? then ParseLabel(row.goldLabel.value) else Err(UnknownLabel)
  }

  function PredictedLabel(row: QueryResult): Option<SciFactLabel> {
    if row.answer.Some? then row.answer.value.verificationLabel else None
  }

  lemma {:induction false} VerifiedRowsMeaning(results: seq<QueryResult>, variant: Variant)
    ensures forall r :: r in VerifiedRows(results, variant) <==> r in results && r.variant == variant && Verified(r)
  {
    if results != [] {
      VerifiedRowsMeaning(results[..|results| - 1], variant);
      assert results == results[..|results| - 1] + [results[|results| - 1]];
    }
  }

  function LabelSummary(variant: Variant, rows: seq<QueryResult>): Outcome<Metric>
  {
    var gold := Collected(Mapped(rows, GoldLabel));
    if gold.Err? then Err(gold.error)
    else
      var score := MacroF1(gold.value, Mapped(rows, PredictedLabel));
      if score.Err? then Err(BadLabels)
      else Ok(MetricSummary(MACRO_F1, variant, score.value, Interval(score.value, score.value), |rows|))
  }

  /** No summary, or one, over all answered rows with a gold label. */
  function Overall(results: seq<QueryResult>, variant: Variant): seq<Outcome<Metric>> {
    var rows := VerifiedRows(results, variant);
    if rows == [] then [] else [LabelSummary(variant, rows)]
  }

  // ---- Comparisons ----

  function ValueOf(scored: seq<Scored>, queryId: string): real {
    if scored == [] then 0.0
    else if scored[|scored| - 1].queryId == queryId then scored[|scored| - 1].value
    else ValueOf(scored[..|scored| - 1], queryId)
  }

  function Aligned(scored: seq<Scored>, ids: seq<string>): (r: seq<real>)
    ensures |r| == |ids| && forall i :: 0 <= i < |r| ==> r[i] == ValueOf(scored, ids[i])
  {
    seq(|ids|, i requires 0 <= i < |ids| => ValueOf(scored, ids[i]))
  }

  /** Both variants' scores in the order of the sorted query ids, and the interval over their differences. */
  function Compare(pair: Pair<Variant>, metric: string, scores: PairedScores, random: FairRandomness, resamples: int)
    : Outcome<Comparison<Variant, string>>
  {
    if ToSet(Ids(scores.0)) != ToSet(Ids(scores.1)) then Err(QueriesDiffer)
    else
      var ids := Sort(Ids(scores.0), StringLe);
      var a, b := Aligned(scores.0, ids), Aligned(scores.1, ids);
      var interval := Checked(PairedBootstrap(a, b, random(pair.0 + "|" + pair.1, metric, |ids|), resamples));
      var meanA, meanB := Checked(Mean(a)), Checked(Mean(b));
      if interval.Err? then Err(interval.error)
      else if meanA.Err? then Err(meanA.error)
      else if meanB.Err? then Err(meanB.error)
      else Ok(Comparison(metric, pair.0, pair.1, meanA.value - meanB.value, interval.value,
                         interval.value.Significant()))
  }

  function BootstrapRules(results: seq<QueryResult>, each: int, random: FairRandomness, resamples: int)
    : Rules<Variant, string>
  {
    Rules(
      (v: Variant, m: string, values: seq<real>) => RequiredSummary(v, m, values, each, random, resamples),
      (v: Variant, m: string, values: seq<real>) => Summary(v, m, values, random, resamples),
      v => Overall(results, v),
      Latency,
      (pair: Pair<Variant>, m: string, scores: PairedScores) => Compare(pair, m, scores, random, resamples))
  }

  // ---- When they can be made ----

  lemma SummaryExactly(variant: Variant, metric: string, values: seq<real>, random: FairRandomness, resamples: int)
    ensures Summary(variant, metric, values, random, resamples).Ok? <==> values != [] && resamples > 0
  {}

  lemma RequiredExactly(variant: Variant, metric: string, values: seq<real>, each: int, random: FairRandomness,
                        resamples: int)
    ensures RequiredSummary(variant, metric, values, each, random, resamples).Ok?
       <==> |values| == each && values != [] && resamples > 0
  {
    SummaryExactly(variant, metric, Sort(values, RealLe), random, resamples);
  }

  lemma LatencyExactly(variant: Variant, stage: string, durations: seq<real>)
    ensures Latency(variant, stage, durations).Ok? <==> durations != []
  {}

  /** Latencies keep the bounds of their durations, and the median is not above the 95th percentile. */
  lemma LatencyMeaning(variant: Variant, stage: string, durations: seq<real>, low: real, high: real)
    requires durations != [] && Within(durations, low, high)
    ensures var s := Latency(variant, stage, durations).value; low <= s.p50 <= s.p95 <= high && s.count > 0
  {
    PercentileWithin(durations, MEDIAN, low, high);
    PercentileWithin(durations, HIGH_LATENCY, low, high);
    PercentileMonotone(durations, MEDIAN, HIGH_LATENCY);
  }

  /** Of n durations that are evenly spread from 0 to n - 1 half lie below the median and 95% below the other one. */
  lemma LatencyOfCounting(variant: Variant, stage: string, n: nat)
    requires n > 0
    ensures Latency(variant, stage, Counting(n))
         == Ok(LatencySummary(variant, stage, (n - 1) as real * 0.5, (n - 1) as real * 0.95, n))
  {
    PercentileOfCounting(n, 0.5);
    PercentileOfCounting(n, 0.95);
  }

  /** A summary reports its values' mean and number, and the interval drawn for its names. */
  lemma SummaryMeaning(variant: Variant, metric: string, values: seq<real>, random: FairRandomness, resamples: int)
    requires Summary(variant, metric, values, random, resamples).Ok?
    ensures var s := Summary(variant, metric, values, random, resamples).value;
            && s.variant == variant && s.metric == metric && s.count == |values|
            && IsMean(s.mean, Sum(values), |values|)
            && MeanInterval(values, random(variant, metric, |values|), resamples) == Ok(s.interval)
  {
    SummaryExactly(variant, metric, values, random, resamples);
    MeanOfValues(values);
  }

  /** The summary of a required metric is that of its values in ascending order. */
  lemma RequiredMeaning(variant: Variant, metric: string, values: seq<real>, each: int, random: FairRandomness,
                        resamples: int)
    requires RequiredSummary(variant, metric, values, each, random, resamples).Ok?
    ensures var s := RequiredSummary(variant, metric, values, each, random, resamples).value;
            && s.variant == variant && s.metric == metric && s.count == |values| == each
            && IsMean(s.mean, Sum(values), |values|)
  {
    SummaryMeaning(variant, metric, Sort(values, RealLe), random, resamples);
    SumIgnoresOrder(Sort(values, RealLe), values);
  }

  /** The labels of the rows that take part, in order, and the names they are stored under. */
  lemma OverallMeaning(results: seq<QueryResult>, variant: Variant, gold: seq<SciFactLabel>)
    requires var rows := VerifiedRows(results, variant);
             |gold| == |rows| > 0
             && forall i :: 0 <= i < |rows| ==>
                  rows[i].goldLabel == Some(match gold[i]
                                            case Support => "SUPPORT"
                                            case Contradict => "CONTRADICT"
                                            case NotEnoughInfo => "NOT_ENOUGH_INFO")
    ensures var rows := VerifiedRows(results, variant);
            var predicted := seq(|rows|, i requires 0 <= i < |rows| =>
                                           if rows[i].answer == None then None
                                           else rows[i].answer.value.verificationLabel);
            MacroF1(gold, predicted).Ok?
            && var score := MacroF1(gold, predicted).value;
               Overall(results, variant)
               == [Ok(MetricSummary("scifact_macro_f1", variant, score, Interval(score, score), |rows|))]
  {
    var rows := VerifiedRows(results, variant);
    var predicted := seq(|rows|, i requires 0 <= i < |rows| =>
                                   if rows[i].answer == None then None else rows[i].answer.value.verificationLabel);
    assert predicted == Mapped(rows, PredictedLabel);
    forall i | 0 <= i < |rows| ensures Mapped(rows, GoldLabel)[i] == Ok(gold[i]) {
      LabelsParseBack(gold[i]);
    }
    CollectedMeaning(Mapped(rows, GoldLabel));
    assert Collected(Mapped(rows, GoldLabel)).value == gold;
  }

  lemma OverallExactly(results: seq<QueryResult>, variant: Variant)
    ensures AllOk(Overall(results, variant))
       <==> forall r <- results :: r.variant == variant && Verified(r) ==> ParseLabel(r.goldLabel.value).Ok?
  {
    VerifiedRowsMeaning(results, variant);
    var rows := VerifiedRows(results, variant);
    LabelSummaryExactly(variant, rows);
    if forall i :: 0 <= i < |rows| ==> GoldLabel(rows[i]).Ok? {
      forall r | r in results && r.variant == variant && Verified(r) ensures ParseLabel(r.goldLabel.value).Ok? {
        var i :| 0 <= i < |rows| && rows[i] == r;
      }
    } else {
      var i :| 0 <= i < |rows| && !GoldLabel(rows[i]).Ok?;
      assert rows[i] in rows;
      assert !Overall(results, variant)[0].Ok?;
    }
  }

  lemma LabelSummaryExactly(variant: Variant, rows: seq<QueryResult>)
    ensures LabelSummary(variant, rows).Ok? <==> rows != [] && forall i :: 0 <= i < |rows| ==> GoldLabel(rows[i]).Ok?
  {
    CollectedMeaning(Mapped(rows, GoldLabel));
  }

  lemma CompareExactly(pair: Pair<Variant>, metric: string, scores: PairedScores, random: FairRandomness,
                       resamples: int)
    ensures Compare(pair, metric, scores, random, resamples).Ok?
       <==> ToSet(Ids(scores.0)) == ToSet(Ids(scores.1)) && scores.0 != [] && resamples > 0
  {}

  // ---- What comparisons say ----

  /** The scores of both variants, query by query, in the order of the query ids. */
  function ScoresByQuery(scores: PairedScores): (seq<real>, seq<real>) {
    var ids := Sort(Ids(scores.0), StringLe);
    (Aligned(scores.0, ids), Aligned(scores.1, ids))
  }

  lemma ScoresByQueryMeaning(scores: PairedScores, holds: (real, real) -> bool)
    requires forall id <- Ids(scores.0) :: holds(ValueOf(scores.0, id), ValueOf(scores.1, id))
    ensures var (a, b) := ScoresByQuery(scores);
            |a| == |b| == |scores.0| && forall i :: 0 <= i < |a| ==> holds(a[i], b[i])
  {
    var ids := Sort(Ids(scores.0), StringLe);
    SortMembers(Ids(scores.0), StringLe);
    forall i | 0 <= i < |ids| ensures ids[i] in Ids(scores.0) {
      assert ids[i] in ids;
    }
  }

  lemma ComparedByQuery(pair: Pair<Variant>, metric: string, scores: PairedScores, random: FairRandomness,
                        resamples: int)
    requires Compare(pair, metric, scores, random, resamples).Ok?
    ensures scores.0 != [] && resamples > 0
    ensures var c, (a, b) := Compare(pair, metric, scores, random, resamples).value, ScoresByQuery(scores);
            var draws := random(pair.0 + "|" + pair.1, metric, |scores.0|);
            && |a| == |b| == |scores.0| && ValidDraws(draws, |a|)
            && PairedBootstrap(a, b, draws, resamples) == Ok(c.interval)
            && c.metric == metric && c.variantA == pair.0 && c.variantB == pair.1
            && (c.significant <==> c.interval.low > 0.0 || c.interval.high < 0.0)
            && c.difference == Mean(a).value - Mean(b).value
  {
    CompareExactly(pair, metric, scores, random, resamples);
  }

  /** A variant that scores higher on every single query is significantly better. */
  lemma UnanimousVariantIsSignificant(pair: Pair<Variant>, metric: string, scores: PairedScores,
                                      random: FairRandomness, resamples: int)
    requires Compare(pair, metric, scores, random, resamples).Ok?
    requires forall id <- Ids(scores.0) :: ValueOf(scores.0, id) > ValueOf(scores.1, id)
    ensures Compare(pair, metric, scores, random, resamples).value.significant
    ensures Compare(pair, metric, scores, random, resamples).value.interval.low > 0.0
  {
    var (a, b) := ScoresByQuery(scores);
    ComparedByQuery(pair, metric, scores, random, resamples);
    ScoresByQueryMeaning(scores, (x, y) => x > y);
    UnanimousWinIsSignificant(a, b, random(pair.0 + "|" + pair.1, metric, |scores.0|), resamples);
  }

  /** And one that scores lower on every query is significantly worse. */
  lemma UnanimousLossIsSignificant(pair: Pair<Variant>, metric: string, scores: PairedScores,
                                   random: FairRandomness, resamples: int)
    requires Compare(pair, metric, scores, random, resamples).Ok?
    requires forall id <- Ids(scores.0) :: ValueOf(scores.0, id) < ValueOf(scores.1, id)
    ensures Compare(pair, metric, scores, random, resamples).value.significant
    ensures Compare(pair, metric, scores, random, resamples).value.interval.high < 0.0
  {
    var (a, b) := ScoresByQuery(scores);
    ComparedByQuery(pair, metric, scores, random, resamples);
    ScoresByQueryMeaning(scores, (x, y) => x < y);
    UnanimousWinIsSignificant(a, b, random(pair.0 + "|" + pair.1, metric, |scores.0|), resamples);
  }

  /** Two variants with the same score on every query are never reported as different. */
  lemma EqualVariantsAreNotSignificant(pair: Pair<Variant>, metric: string, scores: PairedScores,
                                       random: FairRandomness, resamples: int)
    requires Compare(pair, metric, scores, random, resamples).Ok?
    requires forall id <- Ids(scores.0) :: ValueOf(scores.0, id) == ValueOf(scores.1, id)
    ensures !Compare(pair, metric, scores, random, resamples).value.significant
    ensures Compare(pair, metric, scores, random, resamples).value.interval == Interval(0.0, 0.0)
  {
    var (a, b) := ScoresByQuery(scores);
    ComparedByQuery(pair, metric, scores, random, resamples);
    ScoresByQueryMeaning(scores, (x, y) => x == y);
    assert a == b;
    TieIsNotSignificant(a, random(pair.0 + "|" + pair.1, metric, |scores.0|), resamples);
  }
}
