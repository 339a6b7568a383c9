/** Every run the runner completes can be reported. */
module RunnerReport {
  import opened Prelude
  import opened GenerationContract
  import opened EvaluationContract
  import opened EvaluationStore
  import opened EvaluationPlan
  import opened EvaluationRunner
  import opened RunnerSafety
  import opened RunnerHistory
  import opened ListTables
  import opened Reporting
  import opened ReportRules
  import opened EvaluationReport

  /** The rows as they are loaded for the report, in any order that lists each of them once. */
  ghost predicate Lists(keys: seq<Work>, rows: map<Work, ResultRow>) {
    Distinct(keys) && ToSet(keys) == rows.Keys
  }

  /** A row's judge scores in the order in which its verdicts were stored. */
  function JudgeScores(records: seq<JudgeRecord>): seq<Entry> {
    if records == [] then []
    else
      var last := records[|records| - 1];
      JudgeScores(records[..|records| - 1])
      + [(FaithfulnessName(last.profile), last.verdict.faithfulness),
         (RelevanceName(last.profile), last.verdict.relevance)]
  }

  function StoredName(value: Option<SciFactLabel>): Option<string> {
    if value.Some? then Some(LabelName(value.value)) else None
  }

  /** What the timings of the searches were, whatever they were. */
  type Timings = Work -> seq<Entry>

  function LoadedRow(runId: RunId, work: Work, row: ResultRow, timings: Timings): QueryResult {
    QueryResult(runId, work.variant, work.query, timings(work), row.answer, row.deterministicScores,
                JudgeScores(row.judgeRecords), StoredName(row.scifactGoldLabel), row.tokenCost)
  }

  ghost function Loaded(runId: RunId, keys: seq<Work>, rows: map<Work, ResultRow>, timings: Timings)
    : (r: seq<QueryResult>)
    requires Lists(keys, rows)
    ensures |r| == |keys|
    ensures forall i :: 0 <= i < |r| ==> keys[i] in rows && r[i] == LoadedRow(runId, keys[i], rows[keys[i]], timings)
  {
    assert forall k <- keys :: k in ToSet(keys);
    seq(|keys|, i requires 0 <= i < |keys| => LoadedRow(runId, keys[i], rows[keys[i]], timings))
  }

  ghost function RunRecord(runId: RunId, spec: EvalRunSpec, db: Db): ReportRun {
    ReportRun(runId, spec.variants, db.state, db.totalQueries)
  }

  lemma LoadedWellFormed(env: Env, db: Db, runId: RunId, keys: seq<Work>, timings: Timings)
    requires StoreInvariant(env.spec, db) && Lists(keys, db.rows)
    ensures forall r <- Loaded(runId, keys, db.rows, timings) :: WellFormed(RunRecord(runId, env.spec, db), r)
  {
    var results := Loaded(runId, keys, db.rows, timings);
    forall i | 0 <= i < |results| ensures WellFormed(RunRecord(runId, env.spec, db), results[i]) {
      assert keys[i] in ToSet(keys);
      assert RowConsistent(db.rows[keys[i]]);
    }
  }

  lemma LoadedNoDuplicates(db: Db, runId: RunId, keys: seq<Work>, timings: Timings)
    requires Lists(keys, db.rows)
    ensures NoDuplicates(Loaded(runId, keys, db.rows, timings))
  {
    var results := Loaded(runId, keys, db.rows, timings);
    forall i, j | 0 <= i < j < |results| && results[i].variant == results[j].variant
      ensures results[i].queryId != results[j].queryId
    {
      assert keys[i] != keys[j];
    }
  }

  lemma {:induction false} DistinctQueryIds(results: seq<QueryResult>, variant: Variant)
    requires NoDuplicates(results)
    ensures Distinct(QueryIds(results, variant))
  {
    if results != [] {
      var last, init := results[|results| - 1], results[..|results| - 1];
      assert results == init + [last];
      NoDuplicatesOfMore(init, last);
      DistinctQueryIds(init, variant);
      if last.variant == variant {
        QueryIdsMeaning(init, variant, last.queryId);
        DistinctLast(QueryIds(init, variant) + [last.queryId]);
        assert (QueryIds(init, variant) + [last.queryId])[..|QueryIds(init, variant)|] == QueryIds(init, variant);
      }
    }
  }

  function ExternalIds(queries: Queries): (r: seq<string>)
    ensures |r| == |queries| && forall i :: 0 <= i < |r| ==> r[i] == queries[i].externalId
  {
    seq(|queries|, i requires 0 <= i < |queries| => queries[i].externalId)
  }

  /** Each variant was evaluated on exactly the selected queries. */
  lemma VariantCoversQueries(env: Env, db: Db, runId: RunId, keys: seq<Work>, timings: Timings,
                             queries: Queries, variant: Variant)
    requires Lists(keys, db.rows) && db.rows.Keys == WorkSet(queries, env.spec.variants) && variant in env.spec.variants
    ensures ToSet(QueryIds(Loaded(runId, keys, db.rows, timings), variant)) == ToSet(ExternalIds(queries))
  {
    var results := Loaded(runId, keys, db.rows, timings);
    forall id ensures id in QueryIds(results, variant) <==> id in ExternalIds(queries) {
      QueryIdsMeaning(results, variant, id);
      if id in QueryIds(results, variant) {
        var i :| 0 <= i < |results| && results[i].variant == variant && results[i].queryId == id;
        assert keys[i] in ToSet(keys);
        WorkSetMeaning(queries, env.spec.variants, keys[i]);
        var q :| q in queries && q.externalId == id;
        var j :| 0 <= j < |queries| && queries[j] == q;
        assert ExternalIds(queries)[j] == id;
      }
      if id in ExternalIds(queries) {
        var j :| 0 <= j < |queries| && queries[j].externalId == id;
        assert queries[j] in queries;
        assert Work(id, variant) in WorkSet(queries, env.spec.variants);
        assert Work(id, variant) in ToSet(keys);
        var i :| 0 <= i < |keys| && keys[i] == Work(id, variant);
        assert results[i] in results;
      }
    }
  }

  lemma SameSizeLists<T>(a: seq<T>, b: seq<T>)
    requires Distinct(a) && Distinct(b) && ToSet(a) == ToSet(b)
    ensures |a| == |b|
  {
    DistinctCardinality(a);
    DistinctCardinality(b);
  }

  lemma ExternalIdsDistinct(queries: Queries)
    requires DistinctIds(queries)
    ensures Distinct(ExternalIds(queries))
  {}

  lemma VariantCount(env: Env, db: Db, runId: RunId, keys: seq<Work>, timings: Timings, queries: Queries,
                     variant: Variant)
    requires Lists(keys, db.rows) && db.rows.Keys == WorkSet(queries, env.spec.variants) && variant in env.spec.variants
    requires DistinctIds(queries)
    ensures |QueryIds(Loaded(runId, keys, db.rows, timings), variant)| == |queries|
  {
    var results := Loaded(runId, keys, db.rows, timings);
    LoadedNoDuplicates(db, runId, keys, timings);
    DistinctQueryIds(results, variant);
    VariantCoversQueries(env, db, runId, keys, timings, queries, variant);
    ExternalIdsDistinct(queries);
    SameSizeLists(QueryIds(results, variant), ExternalIds(queries));
  }

  lemma MultiplesAreLarge(x: int, b: int)
    requires b > 0
    ensures x > 0 ==> x * b >= b
    ensures x < 0 ==> x * b <= -b
  {
    if x > 0 { assert (x - 1) * b >= 0; }
    if x < 0 { assert (-x - 1) * b >= 0; }
  }

  lemma QuotientOfProduct(a: nat, b: nat, product: int)
    requires b > 0 && product == a * b
    ensures product / b == a
  {
    var q := product / b;
    assert product == q * b + product % b;
    assert (a - q) * b == product % b;
    MultiplesAreLarge(a - q, b);
  }

  // ---- The judge scores are those that the row stores ----

  lemma NamesTellProfiles(p: Profile, q: Profile)
    ensures FaithfulnessName(p) == FaithfulnessName(q) ==> p == q
    ensures RelevanceName(p) == RelevanceName(q) ==> p == q
    ensures FaithfulnessName(p) != RelevanceName(q)
  {
    var f, g := FaithfulnessName(p), FaithfulnessName(q);
    assert f[..|f| - |".faithfulness"|] == p && g[..|g| - |".faithfulness"|] == q;
    var x, y := RelevanceName(p), RelevanceName(q);
    assert x[..|x| - |".relevance"|] == p && y[..|y| - |".relevance"|] == q;
    assert f[|f| - 1] == ".faithfulness"[12] == 's' && y[|y| - 1] == ".relevance"[9] == 'e';
  }

  lemma {:induction false} OtherProfilesScoreElsewhere(records: seq<JudgeRecord>, p: Profile)
    requires p !in Profiles(records)
    ensures FaithfulnessName(p) !in ScoresOf(records) && RelevanceName(p) !in ScoresOf(records)
  {
    if records != [] {
      var last := records[|records| - 1];
      SplitProfiles(records);
      OtherProfilesScoreElsewhere(records[..|records| - 1], p);
      NamesTellProfiles(p, last.profile);
      NamesTellProfiles(last.profile, p);
    }
  }

  /** With one verdict for each profile, as every stored row has, the dictionary holds one entry for each score. */
  lemma {:induction false} JudgeScoresAreStored(records: seq<JudgeRecord>, name: string)
    requires DistinctProfiles(records)
    ensures Named(JudgeScores(records), name) == if name in ScoresOf(records) then [ScoresOf(records)[name]] else []
  {
    if records != [] {
      var init, last := records[..|records| - 1], records[|records| - 1];
      JudgeScoresAreStored(init, name);
      LastProfileIsNew(records);
      OtherProfilesScoreElsewhere(init, last.profile);
      NamesTellProfiles(last.profile, last.profile);
      NamedAppend(JudgeScores(init), [(FaithfulnessName(last.profile), last.verdict.faithfulness),
                                      (RelevanceName(last.profile), last.verdict.relevance)], name);
      NamedOneMore([(FaithfulnessName(last.profile), last.verdict.faithfulness)],
                   (RelevanceName(last.profile), last.verdict.relevance), name);
      NamedOneMore([], (FaithfulnessName(last.profile), last.verdict.faithfulness), name);
    }
  }

  lemma LastProfileIsNew(records: seq<JudgeRecord>)
    requires DistinctProfiles(records) && records != []
    ensures records[|records| - 1].profile !in Profiles(records[..|records| - 1])
    ensures DistinctProfiles(records[..|records| - 1])
  {}

  // ---- Every row adds one value to each required metric ----

  lemma {:induction false} JudgeNamesAreOther(records: seq<JudgeRecord>, i: nat)
    requires i < |JudgeScores(records)|
    ensures ReportedName(JudgeScores(records)[i].0) !in RETRIEVAL_METRIC_NAMES
  {
    var init, last := records[..|records| - 1], records[|records| - 1];
    if i < |JudgeScores(init)| {
      JudgeNamesAreOther(init, i);
    } else {
      JudgeScoresNeverShadowRetrieval(last.profile);
    }
  }

  lemma CostIsOther()
    ensures COST_PER_QUERY !in RETRIEVAL_METRIC_NAMES
  {
    assert |COST_PER_QUERY| == 18;
    assert |NDCG_AT_10| == 10 && |RECALL_AT_10| == 12 && |RECALL_AT_100| == 13 && |MRR_AT_10| == 9;
  }

  lemma OneValueEach(runId: RunId, work: Work, row: ResultRow, timings: Timings, m: string)
    requires m in RETRIEVAL_METRIC_NAMES
    ensures |RowValues(LoadedRow(runId, work, row, timings), RETRIEVAL_METRIC_NAMES, m)| == 1
  {
    var result := LoadedRow(runId, work, row, timings);
    NamedMeaning(JudgeEntries(result), m);
    NamedMeaning(CostEntries(result), m);
    forall i | 0 <= i < |JudgeEntries(result)| ensures JudgeEntries(result)[i].0 != m {
      JudgeNamesAreOther(row.judgeRecords, i);
    }
    CostIsOther();
  }

  /** As many values of a required metric as rows. */
  lemma {:induction false} CountedByRows(results: seq<QueryResult>, variant: Variant, m: string)
    requires forall r <- results :: |RowValues(r, RETRIEVAL_METRIC_NAMES, m)| == 1
    ensures |ValuesOf(results, variant, RETRIEVAL_METRIC_NAMES, m)| == |QueryIds(results, variant)|
  {
    if results != [] {
      assert forall r <- results[..|results| - 1] :: r in results;
      CountedByRows(results[..|results| - 1], variant, m);
      assert results[|results| - 1] in results;
    }
  }

  lemma LoadedCounts(db: Db, runId: RunId, keys: seq<Work>, timings: Timings, variant: Variant, m: string)
    requires Lists(keys, db.rows) && m in RETRIEVAL_METRIC_NAMES
    ensures |ValuesOf(Loaded(runId, keys, db.rows, timings), variant, RETRIEVAL_METRIC_NAMES, m)|
         == |QueryIds(Loaded(runId, keys, db.rows, timings), variant)|
  {
    var results := Loaded(runId, keys, db.rows, timings);
    forall r | r in results ensures |RowValues(r, RETRIEVAL_METRIC_NAMES, m)| == 1 {
      var i :| 0 <= i < |results| && results[i] == r;
      OneValueEach(runId, keys[i], db.rows[keys[i]], timings, m);
    }
    CountedByRows(results, variant, m);
  }

  lemma LoadedLabelsKnown(db: Db, runId: RunId, keys: seq<Work>, timings: Timings)
    requires Lists(keys, db.rows)
    ensures LabelsKnown(Loaded(runId, keys, db.rows, timings))
  {
    var results := Loaded(runId, keys, db.rows, timings);
    forall r | r in results && Verified(r) ensures ParseLabel(r.goldLabel.value).Ok? {
      var i :| 0 <= i < |results| && results[i] == r;
      LabelsParseBack(db.rows[keys[i]].scifactGoldLabel.value);
    }
  }

  // ---- Completed runs ----

  lemma CoveredRunIsSpread(env: Env, db: Db, runId: RunId, keys: seq<Work>, timings: Timings, queries: Queries)
    requires ValidEnv(env) && Lists(keys, db.rows) && Selectable(env, queries) && Covers(env, db, queries)
    ensures EvenlySpread(env.spec.variants, Loaded(runId, keys, db.rows, timings), RETRIEVAL_METRIC_NAMES, |queries|)
    ensures SameQueries(env.spec.variants, Loaded(runId, keys, db.rows, timings))
  {
    var results := Loaded(runId, keys, db.rows, timings);
    SelectableFacts(env, queries);
    forall v | v in env.spec.variants
      ensures |QueryIds(results, v)| == |queries| && ToSet(QueryIds(results, v)) == ToSet(ExternalIds(queries))
    {
      VariantCount(env, db, runId, keys, timings, queries, v);
      VariantCoversQueries(env, db, runId, keys, timings, queries, v);
    }
    forall v, m | v in env.spec.variants && m in RETRIEVAL_METRIC_NAMES
      ensures |ValuesOf(results, v, RETRIEVAL_METRIC_NAMES, m)| == |queries|
    {
      LoadedCounts(db, runId, keys, timings, v, m);
    }
  }

  lemma CoveredRunIsReportable(env: Env, db: Db, runId: RunId, keys: seq<Work>, timings: Timings, queries: Queries)
    requires ValidEnv(env) && StoreInvariant(env.spec, db) && Lists(keys, db.rows) && db.state == Completed
    requires Selectable(env, queries) && Covers(env, db, queries)
    ensures Reportable(RunRecord(runId, env.spec, db), Loaded(runId, keys, db.rows, timings))
  {
    SelectableFacts(env, queries);
    LoadedWellFormed(env, db, runId, keys, timings);
    LoadedNoDuplicates(db, runId, keys, timings);
    LoadedLabelsKnown(db, runId, keys, timings);
    DistinctCardinality(keys);
    QuotientOfProduct(|queries|, |env.spec.variants|, db.totalQueries);
    CoveredRunIsSpread(env, db, runId, keys, timings, queries);
  }

  /** Whatever crashes, restarts and overlaps led there, a completed run passes every check of the report. */
  lemma CompletedRunsAreReportable(env: Env, world: World, runId: RunId, keys: seq<Work>, timings: Timings)
    requires ValidEnv(env) && Reachable(env, world) && world.db.state == Completed && Lists(keys, world.db.rows)
    ensures Reportable(RunRecord(runId, env.spec, world.db), Loaded(runId, keys, world.db.rows, timings))
  {
    CompletedRunsAreExact(env, world);
    ReachableIsSound(env, world);
    var queries :| Selectable(env, queries) && Covers(env, world.db, queries);
    CoveredRunIsReportable(env, world.db, runId, keys, timings, queries);
  }

  /**
   * So building its report never raises, neither a check nor the statistics, for any timings, any seeded generator and
   * any positive number of resamples; with none the statistics raise.
   */
  lemma CompletedRunsHaveReports(env: Env, world: World, runId: RunId, keys: seq<Work>, timings: Timings,
                                 random: FairRandomness, resamples: int)
    requires ValidEnv(env) && Reachable(env, world) && world.db.state == Completed && Lists(keys, world.db.rows)
    ensures var run, results := RunRecord(runId, env.spec, world.db), Loaded(runId, keys, world.db.rows, timings);
            BootstrapReport(run, results, RETRIEVAL_METRIC_NAMES, run.totalQueries / |run.variants|, random,
                            resamples).Ok?
            <==> resamples > 0
  {
    var run, results := RunRecord(runId, env.spec, world.db), Loaded(runId, keys, world.db.rows, timings);
    CompletedRunsAreReportable(env, world, runId, keys, timings);
    BootstrapReportExactly(run, results, RETRIEVAL_METRIC_NAMES, run.totalQueries / |run.variants|, random, resamples);
  }
}
