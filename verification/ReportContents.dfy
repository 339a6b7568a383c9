/** The numbers of a report in terms of the rows it was made from. */
module ReportContents {
  import opened Prelude
  import opened EvaluationContract
  import opened EvaluationStore
  import opened Statistics
  import opened Aggregation
  import opened Reporting
  import opened ReportRules
  import opened EvaluationReport
  import opened EvaluationRunner
  import opened RunnerHistory
  import opened RunnerReport

  /** The sum of a variant's scores on a metric. */
  function ScoreTotal(results: seq<QueryResult>, v: Variant, m: string): real {
    if results == [] then 0.0
    else
      var last := results[|results| - 1];
      var rest := ScoreTotal(results[..|results| - 1], v, m);
      if last.variant == v && m in last.scores then rest + last.scores[m] else rest
  }

  /** The rows of a variant. */
  function RowCount(results: seq<QueryResult>, v: Variant): nat {
    |set i | 0 <= i < |results| && results[i].variant == v|
  }

  lemma RowCountOneMore(results: seq<QueryResult>, v: Variant)
    requires results != []
    ensures var last := |results| - 1;
            RowCount(results, v) == RowCount(results[..last], v) + if results[last].variant == v then 1 else 0
  {
    var last := |results| - 1;
    var before := set i | 0 <= i < |results[..last]| && results[..last][i].variant == v;
    assert (set i | 0 <= i < |results| && results[i].variant == v)
        == before + if results[last].variant == v then {last} else {};
  }

  /** The row carries the metric, and neither a judge nor a cost is reported under its name. */
  predicate Plain(result: QueryResult, m: string) {
    m in result.scores && m != "cost_usd_per_query" && forall e <- result.judgeScores :: !JudgedAs(e.0, m)
  }

  lemma SumOneMore(values: seq<real>, x: real)
    ensures Sum(values + [x]) == Sum(values) + x
  {
    assert (values + [x])[..|values|] == values;
  }

  lemma ListedOneMore(results: seq<QueryResult>, last: QueryResult, v: Variant, names: seq<string>, m: string)
    requires Plain(last, m)
    ensures ValuesOf(results + [last], v, names, m)
         == ValuesOf(results, v, names, m) + if last.variant == v then [last.scores[m]] else []
  {
    UnjudgedRowSays(last, names, m);
    GatheredOneMore(results, last, v, ValuePart(names, m));
    assert ValuePart(names, m)(last) == [last.scores[m]];
  }

  lemma TotalOneMore(results: seq<QueryResult>, last: QueryResult, v: Variant, m: string)
    requires m in last.scores
    ensures ScoreTotal(results + [last], v, m)
         == ScoreTotal(results, v, m) + if last.variant == v then last.scores[m] else 0.0
    ensures RowCount(results + [last], v) == RowCount(results, v) + if last.variant == v then 1 else 0
  {
    assert (results + [last])[..|results|] == results;
    RowCountOneMore(results + [last], v);
  }

  /** The values listed for a metric are one for each row, and add up to its total. */
  lemma {:induction false} ListedTotals(results: seq<QueryResult>, v: Variant, names: seq<string>, m: string)
    requires forall i :: 0 <= i < |results| ==> Plain(results[i], m)
    ensures Sum(ValuesOf(results, v, names, m)) == ScoreTotal(results, v, m)
    ensures |ValuesOf(results, v, names, m)| == RowCount(results, v)
  {
    if results != [] {
      var init, last := results[..|results| - 1], results[|results| - 1];
      assert results == init + [last];
      ListedTotals(init, v, names, m);
      ListedOneMore(init, last, v, names, m);
      TotalOneMore(init, last, v, m);
      if last.variant == v { SumOneMore(ValuesOf(init, v, names, m), last.scores[m]); }
    }
  }

  function Amounts(scored: seq<Scored>): (r: seq<real>)
    ensures |r| == |scored| && forall i :: 0 <= i < |r| ==> r[i] == scored[i].value
  {
    seq(|scored|, i requires 0 <= i < |scored| => scored[i].value)
  }

  lemma PairedOneMore(results: seq<QueryResult>, last: QueryResult, v: Variant, names: seq<string>, m: string)
    requires m in names && m in last.scores
    ensures Amounts(PairedScoresOf(results + [last], v, names, m))
         == Amounts(PairedScoresOf(results, v, names, m)) + if last.variant == v then [last.scores[m]] else []
  {
    GatheredOneMore(results, last, v, ScorePart(names, m));
    assert ScorePart(names, m)(last) == [Scored(last.queryId, last.scores[m])];
  }

  lemma {:induction false} PairedTotals(results: seq<QueryResult>, v: Variant, names: seq<string>, m: string)
    requires m in names && forall i :: 0 <= i < |results| ==> m in results[i].scores
    ensures Sum(Amounts(PairedScoresOf(results, v, names, m))) == ScoreTotal(results, v, m)
    ensures |PairedScoresOf(results, v, names, m)| == RowCount(results, v)
  {
    if results != [] {
      var init, last := results[..|results| - 1], results[|results| - 1];
      assert results == init + [last];
      PairedTotals(init, v, names, m);
      PairedOneMore(init, last, v, names, m);
      TotalOneMore(init, last, v, m);
      if last.variant == v { SumOneMore(Amounts(PairedScoresOf(init, v, names, m)), last.scores[m]); }
    }
  }

  lemma {:induction false} ValueAt(scored: seq<Scored>, i: nat)
    requires Distinct(Ids(scored)) && i < |scored|
    ensures ValueOf(scored, scored[i].queryId) == scored[i].value
  {
    var last := |scored| - 1;
    if i < last {
      assert Ids(scored)[i] != Ids(scored)[last];
      assert Ids(scored[..last]) == Ids(scored)[..last];
      ValueAt(scored[..last], i);
    }
  }

  /** Scores arranged by their sorted queries add up to what they add up to anyway. */
  lemma AlignedTotal(scored: seq<Scored>, ids: seq<string>)
    requires Distinct(Ids(scored)) && multiset(ids) == multiset(Ids(scored))
    ensures Sum(Aligned(scored, ids)) == Sum(Amounts(scored)) && |ids| == |scored|
  {
    var value := (id: string) => ValueOf(scored, id);
    MappedMultiset(ids, Ids(scored), value);
    assert Mapped(ids, value) == Aligned(scored, ids);
    forall i | 0 <= i < |scored| ensures Mapped(Ids(scored), value)[i] == Amounts(scored)[i] {
      ValueAt(scored, i);
    }
    assert Mapped(Ids(scored), value) == Amounts(scored);
    SumIgnoresOrder(Aligned(scored, ids), Amounts(scored));
  }

  // ---- The report ----

  lemma AlignedMean(scored: seq<Scored>, ids: seq<string>)
    requires Distinct(Ids(scored)) && multiset(ids) == multiset(Ids(scored)) && scored != []
    ensures Mean(Aligned(scored, ids)).Ok?
    ensures IsMean(Mean(Aligned(scored, ids)).value, Sum(Amounts(scored)), |scored|)
  {
    AlignedTotal(scored, ids);
    MeanOfValues(Aligned(scored, ids));
  }

  /** Over the same queries the means of both variants are of the same number of values. */
  lemma BothMeans(scores: PairedScores)
    requires ToSet(Ids(scores.0)) == ToSet(Ids(scores.1)) && scores.0 != []
    requires Distinct(Ids(scores.0)) && Distinct(Ids(scores.1))
    ensures |scores.0| == |scores.1|
    ensures IsMean(Mean(ScoresByQuery(scores).0).value, Sum(Amounts(scores.0)), |scores.0|)
    ensures IsMean(Mean(ScoresByQuery(scores).1).value, Sum(Amounts(scores.1)), |scores.0|)
  {
    var ids := Sort(Ids(scores.0), StringLe);
    DistinctMultiset(Ids(scores.0), Ids(scores.1));
    SameSize(Ids(scores.0), Ids(scores.1));
    AlignedMean(scores.0, ids);
    AlignedMean(scores.1, ids);
  }

  lemma SameSize<T>(a: seq<T>, b: seq<T>)
    requires multiset(a) == multiset(b)
    ensures |a| == |b|
  {
    assert |multiset(a)| == |a| && |multiset(b)| == |b|;
  }

  /** A comparison's difference is that of the two variants' means over their common queries. */
  lemma DifferenceOfMeans(pair: Pair<Variant>, m: string, scores: PairedScores, random: FairRandomness, resamples: int)
    requires Compare(pair, m, scores, random, resamples).Ok?
    requires Distinct(Ids(scores.0)) && Distinct(Ids(scores.1))
    ensures |scores.0| == |scores.1|
    ensures IsMean(Compare(pair, m, scores, random, resamples).value.difference,
                   Sum(Amounts(scores.0)) - Sum(Amounts(scores.1)), |scores.0|)
  {
    CompareExactly(pair, m, scores, random, resamples);
    BothMeans(scores);
    ComparedByQuery(pair, m, scores, random, resamples);
    DifferentMeans(Mean(ScoresByQuery(scores).0).value, Mean(ScoresByQuery(scores).1).value, Sum(Amounts(scores.0)),
                   Sum(Amounts(scores.1)), |scores.0|);
  }

  lemma DifferentMeans(a: real, b: real, x: real, y: real, n: nat)
    requires IsMean(a, x, n) && IsMean(b, y, n)
    ensures IsMean(a - b, x - y, n)
  {}

  /** The summary of a variant's required metric is over all its rows. */
  ghost predicate Summarizes(s: MetricSummary<Variant, string>, results: seq<QueryResult>, v: Variant, m: string) {
    && s.variant == v && s.metric == m && s.count == RowCount(results, v)
    && IsMean(s.mean, ScoreTotal(results, v, m), s.count)
  }

  /** The comparison's difference is that of the two variants' means. */
  ghost predicate Subtracts(c: Comparison<Variant, string>, results: seq<QueryResult>, a: Variant, b: Variant,
                            m: string)
  {
    && c.variantA == a && c.variantB == b && c.metric == m && RowCount(results, a) == RowCount(results, b)
    && IsMean(c.difference, ScoreTotal(results, a, m) - ScoreTotal(results, b, m), RowCount(results, a))
    && (c.significant <==> c.interval.low > 0.0 || c.interval.high < 0.0)
  }

  /** A report holds the mean of every required metric over every variant's rows. */
  lemma ReportedMeans(run: ReportRun, results: seq<QueryResult>, names: seq<string>, each: int,
                      random: FairRandomness, resamples: int, v: Variant, m: string)
    requires BootstrapReport(run, results, names, each, random, resamples).Ok?
    requires v in run.variants && m in names && forall i :: 0 <= i < |results| ==> Plain(results[i], m)
    ensures exists s :: s in BootstrapReport(run, results, names, each, random, resamples).value.metrics
                        && Summarizes(s, results, v, m)
  {
    var data, rules := RowData(results, names), BootstrapRules(results, each, random, resamples);
    ReportSummarizesAll(run.variants, names, data, rules, v, m);
    RequiredMeaning(v, m, ValuesOf(results, v, names, m), each, random, resamples);
    ListedTotals(results, v, names, m);
    assert Summarizes(rules.summarize(v, m, data.values(v, m)).value, results, v, m);
  }

  /** And for every pair of variants the difference of their means, significant if its interval leaves out zero. */
  lemma ReportedDifferences(run: ReportRun, results: seq<QueryResult>, names: seq<string>, each: int,
                            random: FairRandomness, resamples: int, i: nat, j: nat, m: string)
    requires BootstrapReport(run, results, names, each, random, resamples).Ok? && NoDuplicates(results)
    requires i < j < |run.variants| && m in names && forall i :: 0 <= i < |results| ==> m in results[i].scores
    ensures exists c :: c in BootstrapReport(run, results, names, each, random, resamples).value.comparisons
                        && Subtracts(c, results, run.variants[i], run.variants[j], m)
  {
    var data, rules := RowData(results, names), BootstrapRules(results, each, random, resamples);
    var pair := (run.variants[i], run.variants[j]);
    ReportComparesAllPairs(run.variants, names, data, rules, i, j, m);
    ComparisonSubtracts(results, pair, names, m, ScoresOfPair(data)(pair, m), random, resamples);
    assert Subtracts(rules.compare(pair, m, ScoresOfPair(data)(pair, m)).value, results, pair.0, pair.1, m);
  }

  lemma ComparisonSubtracts(results: seq<QueryResult>, pair: Pair<Variant>, names: seq<string>, m: string,
                            scores: PairedScores, random: FairRandomness, resamples: int)
    requires NoDuplicates(results) && m in names && forall i :: 0 <= i < |results| ==> m in results[i].scores
    requires scores == (PairedScoresOf(results, pair.0, names, m), PairedScoresOf(results, pair.1, names, m))
    requires Compare(pair, m, scores, random, resamples).Ok?
    ensures Subtracts(Compare(pair, m, scores, random, resamples).value, results, pair.0, pair.1, m)
  {
    ScoredIds(results, pair.0, names, m);
    ScoredIds(results, pair.1, names, m);
    DistinctQueryIds(results, pair.0);
    DistinctQueryIds(results, pair.1);
    PairedTotals(results, pair.0, names, m);
    PairedTotals(results, pair.1, names, m);
    DifferenceOfMeans(pair, m, scores, random, resamples);
    ComparedByQuery(pair, m, scores, random, resamples);
  }

  // ---- The reports of completed runs ----

  lemma LoadedIsPlain(runId: RunId, work: Work, row: ResultRow, timings: Timings, m: string)
    requires m in RETRIEVAL_METRIC_NAMES && m in row.deterministicScores
    ensures Plain(LoadedRow(runId, work, row, timings), m)
  {
    CostIsOther();
    var entries := JudgeScores(row.judgeRecords);
    forall e | e in entries ensures !JudgedAs(e.0, m) {
      var i :| 0 <= i < |entries| && entries[i] == e;
      JudgeNamesAreOther(row.judgeRecords, i);
      ReportedNameExactly(e.0, m);
    }
  }

  lemma AllPlain(env: Env, db: Db, runId: RunId, keys: seq<Work>, timings: Timings, m: string)
    requires StoreInvariant(env.spec, db) && Lists(keys, db.rows) && m in RETRIEVAL_METRIC_NAMES
    ensures var results := Loaded(runId, keys, db.rows, timings);
            forall i :: 0 <= i < |results| ==> Plain(results[i], m)
  {
    var results := Loaded(runId, keys, db.rows, timings);
    forall i | 0 <= i < |results| ensures Plain(results[i], m) {
      assert keys[i] in ToSet(keys);
      assert RowConsistent(db.rows[keys[i]]);
      LoadedIsPlain(runId, keys[i], db.rows[keys[i]], timings, m);
    }
  }

  /**
   * Whatever history led to a completed run, its report holds every variant's mean on every retrieval metric over the
   * stored rows, and the difference of the means of every two variants.
   */
  lemma CompletedRunsReportTheirMeans(env: Env, world: World, runId: RunId, keys: seq<Work>, timings: Timings,
                                      random: FairRandomness, resamples: int, i: nat, j: nat, m: string)
    requires ValidEnv(env) && Reachable(env, world) && world.db.state == Completed && Lists(keys, world.db.rows)
    requires resamples > 0 && i < |env.spec.variants| && m in RETRIEVAL_METRIC_NAMES
    ensures var run, results := RunRecord(runId, env.spec, world.db), Loaded(runId, keys, world.db.rows, timings);
            var report := BootstrapReport(run, results, RETRIEVAL_METRIC_NAMES, run.totalQueries / |run.variants|,
                                          random, resamples);
            && report.Ok?
            && (exists s :: s in report.value.metrics && Summarizes(s, results, env.spec.variants[i], m))
            && (i < j < |env.spec.variants| ==>
                  exists c :: c in report.value.comparisons
                              && Subtracts(c, results, env.spec.variants[i], env.spec.variants[j], m))
  {
    var run, results := RunRecord(runId, env.spec, world.db), Loaded(runId, keys, world.db.rows, timings);
    var each := run.totalQueries / |run.variants|;
    CompletedRunsHaveReports(env, world, runId, keys, timings, random, resamples);
    ReachableIsSound(env, world);
    AllPlain(env, world.db, runId, keys, timings, m);
    ReportedMeans(run, results, RETRIEVAL_METRIC_NAMES, each, random, resamples, env.spec.variants[i], m);
    if i < j < |env.spec.variants| {
      LoadedNoDuplicates(world.db, runId, keys, timings);
      ReportedDifferences(run, results, RETRIEVAL_METRIC_NAMES, each, random, resamples, i, j, m);
    }
  }
}
