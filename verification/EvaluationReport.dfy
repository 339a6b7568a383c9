/** The report of a completed run: summaries, latencies and paired comparisons of its rows. */
module EvaluationReport {
  import opened Prelude
  import opened EvaluationContract
  import opened EvaluationStore
  import opened Statistics
  import opened ListTables
  import opened Aggregation
  import opened Reporting
  import opened ReportRules

  // ---- What the report is about ----

  /** The rows' data; further metrics and stages are reported in the order of their names. */
  ghost function RowData(results: seq<QueryResult>, names: seq<string>): Data<Variant, string> {
    Data((v, m) => ValuesOf(results, v, names, m), (v, m) => PairedScoresOf(results, v, names, m),
         (v, s) => DurationsOf(results, v, s), v => Listing(ValueNames(results, v, names) - ToSet(names)),
         v => Listing(StageNames(results, v)))
  }

  type NameLists = map<Variant, seq<string>>

  function NamesIn(lists: NameLists, v: Variant): seq<string> {
    if v in lists then lists[v] else []
  }

  function TableData(tables: Tables, extras: NameLists, stages: NameLists): Data<Variant, string> {
    Data((v, m) => Get(tables.metricValues, v, m), (v, m) => Get(tables.pairedValues, v, m),
         (v, s) => Get(tables.latencyValues, v, s), v => NamesIn(extras, v), v => NamesIn(stages, v))
  }

  /** For every variant, the names that a table has values under, apart from the excluded ones, in their order. */
  method ListNames(variants: seq<Variant>, table: Table<Variant, string, real>, excluded: seq<string>)
    returns (lists: NameLists)
    ensures forall v <- variants ::
              var members := set key <- table | key.0 == v && key.1 !in excluded :: key.1;
              NamesIn(lists, v) == Listing(members)
  {
    lists := map[];
    for i := 0 to |variants|
      invariant forall j :: 0 <= j < i ==>
                  variants[j] in lists && lists[variants[j]] == Listing(Members(table, variants[j], excluded))
    {
      var v := variants[i];
      var names := NamesUnder(table, v, excluded);
      assert ToSet(names) == Members(table, v, excluded);
      SortedNamesAreListed(names);
      ListingIsUnique(SortedNames(names), Listing(Members(table, v, excluded)), Members(table, v, excluded));
      lists := lists[v := SortedNames(names)];
    }
  }

  function Members(table: Table<Variant, string, real>, v: Variant, excluded: seq<string>): set<string> {
    set key <- table | key.0 == v && key.1 !in excluded :: key.1
  }

  lemma TableNames(table: Table<Variant, string, real>, v: Variant, m: string, excluded: seq<string>)
    requires NoEmptyLists(table)
    ensures m in Members(table, v, excluded) <==> |Get(table, v, m)| > 0 && m !in excluded
  {
    if |Get(table, v, m)| > 0 && m !in excluded { assert (v, m) in table; }
  }

  lemma TablesAgreeWithRows(variants: seq<Variant>, tables: Tables, results: seq<QueryResult>, names: seq<string>,
                            extras: NameLists, stages: NameLists)
    requires Tabulates(tables, results, names)
    requires forall v <- variants :: NamesIn(extras, v) == Listing(Members(tables.metricValues, v, names))
    requires forall v <- variants :: NamesIn(stages, v) == Listing(Members(tables.latencyValues, v, []))
    ensures Agree(variants, TableData(tables, extras, stages), RowData(results, names))
  {
    forall v
      ensures Members(tables.metricValues, v, names) == ValueNames(results, v, names) - ToSet(names)
      ensures Members(tables.latencyValues, v, []) == StageNames(results, v)
    {
      forall m
        ensures m in Members(tables.metricValues, v, names) <==> m in ValueNames(results, v, names) - ToSet(names)
        ensures m in Members(tables.latencyValues, v, []) <==> m in StageNames(results, v)
      {
        TableNames(tables.metricValues, v, m, names);
        TableNames(tables.latencyValues, v, m, []);
        ValueNamesMeaning(results, v, names, m);
        StageNamesMeaning(results, v, m);
      }
    }
  }

  // ---- When its parts can be made ----

  lemma RequiredPartExactly(results: seq<QueryResult>, v: Variant, names: seq<string>, each: int,
                            random: FairRandomness, resamples: int)
    requires names != []
    ensures AllOk(Made(RowData(results, names).values, v, names,
                       BootstrapRules(results, each, random, resamples).summarize))
       <==> (forall m <- names :: |ValuesOf(results, v, names, m)| == each) && each > 0 && resamples > 0
  {
    var made := Made(RowData(results, names).values, v, names,
                     BootstrapRules(results, each, random, resamples).summarize);
    forall i | 0 <= i < |names|
      ensures made[i].Ok? <==> |ValuesOf(results, v, names, names[i])| == each && each > 0 && resamples > 0
    {
      RequiredExactly(v, names[i], ValuesOf(results, v, names, names[i]), each, random, resamples);
    }
    assert names[0] in names;
  }

  lemma ExtraPartWorks(results: seq<QueryResult>, v: Variant, names: seq<string>, each: int,
                       random: FairRandomness, resamples: int)
    requires resamples > 0
    ensures AllOk(Made(RowData(results, names).values, v, RowData(results, names).extras(v),
                       BootstrapRules(results, each, random, resamples).summarizeExtra))
  {
    var extras := RowData(results, names).extras(v);
    forall i | 0 <= i < |extras| ensures Summary(v, extras[i], ValuesOf(results, v, names, extras[i]), random,
                                                 resamples).Ok?
    {
      assert extras[i] in ToSet(extras);
      ValueNamesMeaning(results, v, names, extras[i]);
      SummaryExactly(v, extras[i], ValuesOf(results, v, names, extras[i]), random, resamples);
    }
  }

  predicate LabelsKnownOf(results: seq<QueryResult>, v: Variant) {
    forall r <- results :: r.variant == v && Verified(r) ==> ParseLabel(r.goldLabel.value).Ok?
  }

  lemma MetricsExactly(results: seq<QueryResult>, v: Variant, names: seq<string>, each: int,
                       random: FairRandomness, resamples: int)
    requires names != []
    ensures AllOk(MetricsOf(RowData(results, names), names, BootstrapRules(results, each, random, resamples))(v))
       <==> && (forall m <- names :: |ValuesOf(results, v, names, m)| == each) && each > 0 && resamples > 0
            && LabelsKnownOf(results, v)
  {
    var data, rules := RowData(results, names), BootstrapRules(results, each, random, resamples);
    var required := Made(data.values, v, names, rules.summarize);
    var extra := Made(data.values, v, data.extras(v), rules.summarizeExtra);
    AllOkAppend(required, extra);
    AllOkAppend(required + extra, rules.overall(v));
    RequiredPartExactly(results, v, names, each, random, resamples);
    OverallExactly(results, v);
    if resamples > 0 { ExtraPartWorks(results, v, names, each, random, resamples); }
  }

  lemma LatenciesWork(results: seq<QueryResult>, v: Variant, names: seq<string>, rules: Rules<Variant, string>)
    requires rules.summarizeLatency == Latency
    ensures AllOk(LatenciesOf(RowData(results, names), rules)(v))
  {
    var stages := RowData(results, names).stages(v);
    forall i | 0 <= i < |stages| ensures Latency(v, stages[i], DurationsOf(results, v, stages[i])).Ok? {
      assert stages[i] in ToSet(stages);
      StageNamesMeaning(results, v, stages[i]);
      LatencyExactly(v, stages[i], DurationsOf(results, v, stages[i]));
    }
  }

  lemma ComparisonsExactly(results: seq<QueryResult>, pair: Pair<Variant>, names: seq<string>, each: int,
                           random: FairRandomness, resamples: int)
    requires names != []
    ensures AllOk(ComparisonsOf(RowData(results, names), names, BootstrapRules(results, each, random, resamples))(pair))
       <==> SameIds(results, pair.0, pair.1) && QueryIds(results, pair.0) != [] && resamples > 0
  {
    var data, rules := RowData(results, names), BootstrapRules(results, each, random, resamples);
    var made := ComparisonsOf(data, names, rules)(pair);
    forall i | 0 <= i < |names|
      ensures made[i].Ok? <==> SameIds(results, pair.0, pair.1) && QueryIds(results, pair.0) != [] && resamples > 0
    {
      assert names[i] in names;
      ScoredIds(results, pair.0, names, names[i]);
      ScoredIds(results, pair.1, names, names[i]);
      CompareExactly(pair, names[i], ScoresOfPair(data)(pair, names[i]), random, resamples);
    }
    assert names[0] in names;
  }

  lemma SameQueriesByPairs(variants: seq<Variant>, results: seq<QueryResult>)
    ensures SameQueries(variants, results) <==> forall pair <- Pairs(variants) :: SameIds(results, pair.0, pair.1)
  {
    PairsAreOfVariants(variants);
    if forall pair <- Pairs(variants) :: SameIds(results, pair.0, pair.1) {
      forall v, w | v in variants && w in variants ensures SameIds(results, v, w) {
        var i :| 0 <= i < |variants| && variants[i] == v;
        var j :| 0 <= j < |variants| && variants[j] == w;
        if i < j { PairIsThere(variants, i, j); }
        if j < i { PairIsThere(variants, j, i); }
      }
    }
  }

  lemma RowHasValues(results: seq<QueryResult>, r: QueryResult, names: seq<string>, m: string)
    requires r in results && m in names
    ensures |ValuesOf(results, r.variant, names, m)| > 0
  {
    RowNamesMeaning(r, names, m);
    ValueNamesMeaning(results, r.variant, names, m);
  }

  lemma ValuesHaveRows(results: seq<QueryResult>, v: Variant, names: seq<string>, m: string)
    requires |ValuesOf(results, v, names, m)| > 0
    ensures QueryIds(results, v) != []
  {
    GatheredExactly(results, v, ValuePart(names, m));
    var r :| r in results && r.variant == v && |ValuePart(names, m)(r)| > 0;
    QueryIdsMeaning(results, v, r.queryId);
  }

  lemma LabelsKnownEverywhere(variants: seq<Variant>, results: seq<QueryResult>)
    requires forall r <- results :: r.variant in variants
    ensures LabelsKnown(results) <==> forall v <- variants :: LabelsKnownOf(results, v)
  {}

  ghost function BootstrapReport(run: ReportRun, results: seq<QueryResult>, names: seq<string>, each: int,
                                 random: FairRandomness, resamples: int): Outcome<Report<Variant, string>>
  {
    ReportOutcome(run.variants, names, RowData(results, names), BootstrapRules(results, each, random, resamples))
  }

  lemma BootstrapReportExactly(run: ReportRun, results: seq<QueryResult>, names: seq<string>, each: int,
                               random: FairRandomness, resamples: int)
    requires results != [] && names != [] && forall r <- results :: r.variant in run.variants
    ensures BootstrapReport(run, results, names, each, random, resamples).Ok?
       <==> && EvenlySpread(run.variants, results, names, each) && SameQueries(run.variants, results)
            && LabelsKnown(results) && resamples > 0
  {
    var data, rules := RowData(results, names), BootstrapRules(results, each, random, resamples);
    ReportExactly(run.variants, names, data, rules);
    SameQueriesByPairs(run.variants, results);
    LabelsKnownEverywhere(run.variants, results);
    assert results[0] in results && names[0] in names;
    RowHasValues(results, results[0], names, names[0]);
    forall v | v in run.variants
      ensures AllOk(LatenciesOf(data, rules)(v))
      ensures AllOk(MetricsOf(data, names, rules)(v))
         <==> && (forall m <- names :: |ValuesOf(results, v, names, m)| == each) && each > 0 && resamples > 0
              && LabelsKnownOf(results, v)
      ensures each > 0 && |ValuesOf(results, v, names, names[0])| == each ==> QueryIds(results, v) != []
    {
      LatenciesWork(results, v, names, rules);
      MetricsExactly(results, v, names, each, random, resamples);
      if |ValuesOf(results, v, names, names[0])| > 0 { ValuesHaveRows(results, v, names, names[0]); }
    }
    PairsAreOfVariants(run.variants);
    forall pair | pair in Pairs(run.variants)
      ensures AllOk(ComparisonsOf(data, names, rules)(pair))
         <==> SameIds(results, pair.0, pair.1) && QueryIds(results, pair.0) != [] && resamples > 0
    {
      ComparisonsExactly(results, pair, names, each, random, resamples);
    }
  }

  // ---- The report ----

  /**
   * A report is built exactly for reportable runs and a positive number of resamples, and holds exactly what the rows
   * say; otherwise an error is raised, by a check or by the statistics.
   */
  method BuildEvaluationReport(run: ReportRun, results: seq<QueryResult>, random: FairRandomness, resamples: int)
    returns (r: Outcome<Report<Variant, string>>)
    requires run.variants != []
    ensures r.Ok? <==> Reportable(run, results) && resamples > 0
    ensures r.Ok? ==> r == BootstrapReport(run, results, RETRIEVAL_METRIC_NAMES,
                                           run.totalQueries / |run.variants|, random, resamples)
  {
    if !run.state.Completed? { return Err(NotCompleted); }
    if results == [] { return Err(NoResults); }
    if |results| != run.totalQueries { return Err(CountMismatch); }
    var tables := CollectScores(run, results);
    if tables.Err? { return Err(tables.error); }
    r := ReportTables(run, results, RETRIEVAL_METRIC_NAMES, tables.value, run.totalQueries / |run.variants|, random,
                      resamples);
  }

  method ReportTables(run: ReportRun, results: seq<QueryResult>, names: seq<string>, tables: Tables, each: int,
                      random: FairRandomness, resamples: int)
    returns (r: Outcome<Report<Variant, string>>)
    requires results != [] && names != [] && forall x <- results :: x.variant in run.variants
    requires Tabulates(tables, results, names)
    ensures r == BootstrapReport(run, results, names, each, random, resamples)
    ensures r.Ok? <==> && EvenlySpread(run.variants, results, names, each) && SameQueries(run.variants, results)
                       && LabelsKnown(results) && resamples > 0
  {
    var extras := ListNames(run.variants, tables.metricValues, names);
    var stages := ListNames(run.variants, tables.latencyValues, []);
    r := Aggregate(run.variants, names, TableData(tables, extras, stages),
                   BootstrapRules(results, each, random, resamples));
    TablesAgreeWithRows(run.variants, tables, results, names, extras, stages);
    SameReport(run.variants, names, TableData(tables, extras, stages), RowData(results, names),
               BootstrapRules(results, each, random, resamples));
    BootstrapReportExactly(run, results, names, each, random, resamples);
  }

  // ---- What its comparisons say ----

  /** On every query that both variants answered, their scores on the metric are related like this. */
  predicate Relates(results: seq<QueryResult>, a: Variant, b: Variant, m: string, holds: (real, real) -> bool) {
    forall r <- results, s <- results ::
      r.variant == a && s.variant == b && r.queryId == s.queryId ==> holds(ScoreIn(r, m), ScoreIn(s, m))
  }

  lemma {:induction false} RowScore(results: seq<QueryResult>, r: QueryResult, names: seq<string>, m: string)
    requires NoDuplicates(results) && r in results && m in names
    ensures ValueOf(PairedScoresOf(results, r.variant, names, m), r.queryId) == ScoreIn(r, m)
  {
    var last, init := results[|results| - 1], results[..|results| - 1];
    var scored := PairedScoresOf(init, r.variant, names, m);
    assert results == init + [last];
    if last.variant == r.variant {
      assert PairedScoresOf(results, r.variant, names, m) == scored + [Scored(last.queryId, ScoreIn(last, m))];
      assert (scored + [Scored(last.queryId, ScoreIn(last, m))])[..|scored|] == scored;
    }
    if r in init {
      RowScore(init, r, names, m);
      var i :| 0 <= i < |init| && init[i] == r;
      assert results[i] == r && results[|init|] == last;
    }
  }

  lemma RelatedByQuery(results: seq<QueryResult>, a: Variant, b: Variant, names: seq<string>, m: string,
                       holds: (real, real) -> bool)
    requires NoDuplicates(results) && m in names && SameIds(results, a, b) && Relates(results, a, b, m, holds)
    ensures var f, g := PairedScoresOf(results, a, names, m), PairedScoresOf(results, b, names, m);
            forall id <- Ids(f) :: holds(ValueOf(f, id), ValueOf(g, id))
  {
    var f, g := PairedScoresOf(results, a, names, m), PairedScoresOf(results, b, names, m);
    ScoredIds(results, a, names, m);
    forall id | id in Ids(f) ensures holds(ValueOf(f, id), ValueOf(g, id)) {
      assert id in ToSet(QueryIds(results, a));
      assert id in ToSet(QueryIds(results, b));
      QueryIdsMeaning(results, a, id);
      QueryIdsMeaning(results, b, id);
      var r :| r in results && r.variant == a && r.queryId == id;
      var s :| s in results && s.variant == b && s.queryId == id;
      RowScore(results, r, names, m);
      RowScore(results, s, names, m);
    }
  }

  /** What a comparison says of the rows: a clean win or loss is significant, a complete tie is not. */
  predicate SaysSo(c: Comparison<Variant, string>, results: seq<QueryResult>, a: Variant, b: Variant, m: string) {
    && c.variantA == a && c.variantB == b && c.metric == m
    && (Relates(results, a, b, m, (x, y) => x > y) ==> c.significant && c.interval.low > 0.0)
    && (Relates(results, a, b, m, (x, y) => x < y) ==> c.significant && c.interval.high < 0.0)
    && (Relates(results, a, b, m, (x, y) => x == y) ==> !c.significant && c.interval == Interval(0.0, 0.0))
  }

  lemma ComparisonSaysSo(results: seq<QueryResult>, pair: Pair<Variant>, names: seq<string>, m: string,
                         scores: PairedScores, random: FairRandomness, resamples: int)
    requires NoDuplicates(results) && m in names && SameIds(results, pair.0, pair.1)
    requires scores == (PairedScoresOf(results, pair.0, names, m), PairedScoresOf(results, pair.1, names, m))
    requires Compare(pair, m, scores, random, resamples).Ok?
    ensures SaysSo(Compare(pair, m, scores, random, resamples).value, results, pair.0, pair.1, m)
  {
    ComparedByQuery(pair, m, scores, random, resamples);
    if Relates(results, pair.0, pair.1, m, (x, y) => x > y) {
      RelatedByQuery(results, pair.0, pair.1, names, m, (x, y) => x > y);
      UnanimousVariantIsSignificant(pair, m, scores, random, resamples);
    }
    if Relates(results, pair.0, pair.1, m, (x, y) => x < y) {
      RelatedByQuery(results, pair.0, pair.1, names, m, (x, y) => x < y);
      UnanimousLossIsSignificant(pair, m, scores, random, resamples);
    }
    if Relates(results, pair.0, pair.1, m, (x, y) => x == y) {
      RelatedByQuery(results, pair.0, pair.1, names, m, (x, y) => x == y);
      EqualVariantsAreNotSignificant(pair, m, scores, random, resamples);
    }
  }

  /**
   * A report compares every earlier variant with every later one on every required metric; it calls the difference
   * significant if one of them wins on every query, and not if they tie on every query.
   */
  lemma ReportSaysSo(run: ReportRun, results: seq<QueryResult>, names: seq<string>, each: int, random: FairRandomness,
                     resamples: int, i: nat, j: nat, m: string)
    requires results != [] && NoDuplicates(results) && forall r <- results :: r.variant in run.variants
    requires BootstrapReport(run, results, names, each, random, resamples).Ok?
    requires i < j < |run.variants| && m in names
    ensures exists c :: c in BootstrapReport(run, results, names, each, random, resamples).value.comparisons
                        && SaysSo(c, results, run.variants[i], run.variants[j], m)
  {
    var data, rules := RowData(results, names), BootstrapRules(results, each, random, resamples);
    var pair := (run.variants[i], run.variants[j]);
    var scores := ScoresOfPair(data)(pair, m);
    BootstrapReportExactly(run, results, names, each, random, resamples);
    ReportComparesAllPairs(run.variants, names, data, rules, i, j, m);
    ComparisonSaysSo(results, pair, names, m, scores, random, resamples);
  }
}
