/** The rows of a completed run as the report reads them, and its first pass, which sorts their scores into tables. */
module Reporting {
  import opened Prelude
  import opened GenerationContract
  import opened EvaluationContract
  import opened EvaluationStore
  import opened ListTables
  import opened Aggregation

  type RunId = nat

  /** A name and a number, as the entries of an ordered dictionary or the timing of one stage. */
  type Entry = (string, real)

  datatype QueryResult = QueryResult(
    runId: RunId, variant: Variant, queryId: string, timings: seq<Entry>, answer: Option<AnswerResponse>,
    scores: Scores, judgeScores: seq<Entry>, goldLabel: Option<string>, tokenCost: real)

  datatype ReportRun = ReportRun(id: RunId, variants: seq<Variant>, state: RunState, totalQueries: nat)

  const COST_PER_QUERY: string := "cost_usd_per_query"

  // ---- What one row says ----

  function ScoreIn(result: QueryResult, metric: string): real {
    if metric in result.scores then result.scores[metric] else 0.0
  }

  /** The name a judge score is reported under: the default profile's prefix is dropped. */
  function ReportedName(metric: string): string {
    if "default." <= metric then metric[|"default."|..] else metric
  }

  lemma ReportedNameKeepsItsEnd(metric: string)
    requires |metric| > |"default."|
    ensures ReportedName(metric) != [] && ReportedName(metric)[|ReportedName(metric)| - 1] == metric[|metric| - 1]
  {}

  /** Scores of the default profile are reported under the plain name, all others under their own. */
  lemma ReportedNameExactly(score: string, metric: string)
    ensures ReportedName(score) == metric
       <==> score == "default." + metric || (score == metric && !("default." <= score))
  {
    if "default." <= score { assert score == "default." + score[|"default."|..]; }
  }

  /** No judge profile, however it is called, can add values to a retrieval metric's list. */
  lemma JudgeScoresNeverShadowRetrieval(profile: Profile)
    ensures ReportedName(FaithfulnessName(profile)) !in RETRIEVAL_METRIC_NAMES
    ensures ReportedName(RelevanceName(profile)) !in RETRIEVAL_METRIC_NAMES
  {
    assert ".faithfulness"[12] == 's' && ".relevance"[9] == 'e';
    ReportedNameKeepsItsEnd(FaithfulnessName(profile));
    ReportedNameKeepsItsEnd(RelevanceName(profile));
    assert forall m <- RETRIEVAL_METRIC_NAMES :: m[|m| - 1] == '0';
  }

  function RequiredEntries(result: QueryResult, names: seq<string>): (r: seq<Entry>)
    ensures |r| == |names| && forall i :: 0 <= i < |r| ==> r[i] == (names[i], ScoreIn(result, names[i]))
  {
    seq(|names|, i requires 0 <= i < |names| => (names[i], ScoreIn(result, names[i])))
  }

  function PairedEntries(result: QueryResult, names: seq<string>): (r: seq<(string, Scored)>)
    ensures |r| == |names|
    ensures forall i :: 0 <= i < |r| ==> r[i] == (names[i], Scored(result.queryId, ScoreIn(result, names[i])))
  {
    seq(|names|, i requires 0 <= i < |names| => (names[i], Scored(result.queryId, ScoreIn(result, names[i]))))
  }

  function JudgeEntries(result: QueryResult): (r: seq<Entry>)
    ensures |r| == |result.judgeScores|
    ensures forall i :: 0 <= i < |r| ==> r[i] == (ReportedName(result.judgeScores[i].0), result.judgeScores[i].1)
  {
    seq(|result.judgeScores|, i requires 0 <= i < |result.judgeScores| =>
      (ReportedName(result.judgeScores[i].0), result.judgeScores[i].1))
  }

  function CostEntries(result: QueryResult): seq<Entry> {
    if result.answer.Some? then [(COST_PER_QUERY, result.tokenCost)] else []
  }

  /** The row's own score under a name: one of the required metrics, or any other deterministic score it has. */
  function OwnValues(result: QueryResult, names: seq<string>, metric: string): seq<real> {
    if metric in names then [ScoreIn(result, metric)]
    else if metric in result.scores then [result.scores[metric]]
    else []
  }

  /** All that the row contributes to a metric: its own score, judges' scores under that name, and its cost. */
  function RowValues(result: QueryResult, names: seq<string>, metric: string): seq<real> {
    OwnValues(result, names, metric) + Named(JudgeEntries(result), metric) + Named(CostEntries(result), metric)
  }

  function RowScores(result: QueryResult, names: seq<string>, metric: string): seq<Scored> {
    if metric in names then [Scored(result.queryId, ScoreIn(result, metric))] else []
  }

  /** A judge's score is reported under this name. */
  predicate JudgedAs(score: string, metric: string) {
    score == "default." + metric || (score == metric && !("default." <= score))
  }

  lemma NobodyJudges(result: QueryResult, metric: string)
    requires forall e <- result.judgeScores :: !JudgedAs(e.0, metric)
    ensures Named(JudgeEntries(result), metric) == []
  {
    NamedMeaning(JudgeEntries(result), metric);
    forall i | 0 <= i < |result.judgeScores| ensures JudgeEntries(result)[i].0 != metric {
      assert result.judgeScores[i] in result.judgeScores;
      ReportedNameExactly(result.judgeScores[i].0, metric);
    }
  }

  lemma OneJudges(result: QueryResult, metric: string, i: nat)
    requires i < |result.judgeScores|
    requires forall j :: 0 <= j < |result.judgeScores| ==> (JudgedAs(result.judgeScores[j].0, metric) <==> j == i)
    ensures Named(JudgeEntries(result), metric) == [result.judgeScores[i].1]
  {
    forall j | 0 <= j < |result.judgeScores| ensures JudgeEntries(result)[j].0 == metric <==> j == i {
      ReportedNameExactly(result.judgeScores[j].0, metric);
    }
    NamedOnce(JudgeEntries(result), i);
  }

  /** Under a name no judge uses a row says its own score, or what its answer cost. */
  lemma UnjudgedRowSays(result: QueryResult, names: seq<string>, metric: string)
    requires forall e <- result.judgeScores :: !JudgedAs(e.0, metric)
    ensures metric in result.scores && metric != "cost_usd_per_query"
        ==> RowValues(result, names, metric) == [result.scores[metric]]
    ensures metric == "cost_usd_per_query" && metric !in names && metric !in result.scores
        ==> RowValues(result, names, metric) == if result.answer == None then [] else [result.tokenCost]
  {
    NobodyJudges(result, metric);
    NamedMeaning(CostEntries(result), metric);
    if result.answer.Some? { NamedOnce(CostEntries(result), 0); }
  }

  /** Under a name one judge uses, and nobody else, a row says that judge's score. */
  lemma JudgedRowSays(result: QueryResult, names: seq<string>, metric: string, i: nat)
    requires i < |result.judgeScores|
    requires forall j :: 0 <= j < |result.judgeScores| ==> (JudgedAs(result.judgeScores[j].0, metric) <==> j == i)
    requires metric !in names && metric !in result.scores && metric != "cost_usd_per_query"
    ensures RowValues(result, names, metric) == [result.judgeScores[i].1]
  {
    OneJudges(result, metric, i);
    NamedMeaning(CostEntries(result), metric);
  }

  function EntryNames(entries: seq<Entry>): set<string> {
    set e <- entries :: e.0
  }

  function RowNames(result: QueryResult, names: seq<string>): set<string> {
    ToSet(names) + result.scores.Keys + EntryNames(JudgeEntries(result)) + EntryNames(CostEntries(result))
  }

  // ---- What all rows say ----

  /** What each row of a variant contributes, in the order of the rows. */
  function Gathered<X>(results: seq<QueryResult>, variant: Variant, part: QueryResult -> seq<X>): seq<X> {
    if results == [] then []
    else
      var last := results[|results| - 1];
      var rest := Gathered(results[..|results| - 1], variant, part);
      if last.variant == variant then rest + part(last) else rest
  }

  function ValuePart(names: seq<string>, metric: string): QueryResult -> seq<real> {
    r => RowValues(r, names, metric)
  }

  function ScorePart(names: seq<string>, metric: string): QueryResult -> seq<Scored> {
    r => RowScores(r, names, metric)
  }

  function DurationPart(stage: string): QueryResult -> seq<real> {
    (r: QueryResult) => Named(r.timings, stage)
  }

  function ValuesOf(results: seq<QueryResult>, variant: Variant, names: seq<string>, metric: string): seq<real> {
    Gathered(results, variant, ValuePart(names, metric))
  }

  function PairedScoresOf(results: seq<QueryResult>, variant: Variant, names: seq<string>, metric: string): seq<Scored>
  {
    Gathered(results, variant, ScorePart(names, metric))
  }

  function DurationsOf(results: seq<QueryResult>, variant: Variant, stage: string): seq<real> {
    Gathered(results, variant, DurationPart(stage))
  }

  /** The names that some row of the variant contributes to. */
  function ValueNames(results: seq<QueryResult>, variant: Variant, names: seq<string>): set<string> {
    set r <- results, m <- RowNames(r, names) | r.variant == variant :: m
  }

  function StageNames(results: seq<QueryResult>, variant: Variant): set<string> {
    set r <- results, e <- r.timings | r.variant == variant :: e.0
  }

  /** The queries of one variant, in the order of the rows. */
  function QueryIds(results: seq<QueryResult>, variant: Variant): seq<string> {
    if results == [] then []
    else
      var last := results[|results| - 1];
      var rest := QueryIds(results[..|results| - 1], variant);
      if last.variant == variant then rest + [last.queryId] else rest
  }

  // ---- What the report demands ----

  predicate WellFormed(run: ReportRun, result: QueryResult) {
    && result.runId == run.id && result.variant in run.variants
    && forall m <- RETRIEVAL_METRIC_NAMES :: m in result.scores
  }

  predicate NoDuplicates(results: seq<QueryResult>) {
    forall i, j :: 0 <= i < j < |results| && results[i].variant == results[j].variant ==>
      results[i].queryId != results[j].queryId
  }

  /** Every variant has this many values of every required metric. */
  predicate EvenlySpread(variants: seq<Variant>, results: seq<QueryResult>, names: seq<string>, each: int) {
    forall v <- variants, m <- names :: |ValuesOf(results, v, names, m)| == each
  }

  predicate SameIds(results: seq<QueryResult>, a: Variant, b: Variant) {
    ToSet(QueryIds(results, a)) == ToSet(QueryIds(results, b))
  }

  predicate SameQueries(variants: seq<Variant>, results: seq<QueryResult>) {
    forall v <- variants, w <- variants :: SameIds(results, v, w)
  }

  function LabelName(value: SciFactLabel): string {
    match value
    case Support => "SUPPORT"
    case Contradict => "CONTRADICT"
    case NotEnoughInfo => "NOT_ENOUGH_INFO"
  }

  function ParseLabel(name: string): Outcome<SciFactLabel> {
    if name == LabelName(Support) then Ok(Support)
    else if name == LabelName(Contradict) then Ok(Contradict)
    else if name == LabelName(NotEnoughInfo) then Ok(NotEnoughInfo)
    else Err(UnknownLabel)
  }

  lemma LabelsParseBack(value: SciFactLabel)
    ensures ParseLabel(LabelName(value)) == Ok(value)
  {
    assert |LabelName(Support)| == 7 && |LabelName(Contradict)| == 10 && |LabelName(NotEnoughInfo)| == 15;
  }

  /** An answered row with a gold label takes part in the score over labels. */
  predicate Verified(result: QueryResult) {
    result.goldLabel.Some? && result.answer.Some?
  }

  predicate LabelsKnown(results: seq<QueryResult>) {
    forall r <- results :: Verified(r) ==> ParseLabel(r.goldLabel.value).Ok?
  }

  /** All that the report demands of a run and its rows. */
  predicate Reportable(run: ReportRun, results: seq<QueryResult>) {
    && run.state.Completed? && results != [] && |results| == run.totalQueries
    && (forall r <- results :: WellFormed(run, r))
    && NoDuplicates(results) && run.variants != []
    && EvenlySpread(run.variants, results, RETRIEVAL_METRIC_NAMES, run.totalQueries / |run.variants|)
    && SameQueries(run.variants, results) && LabelsKnown(results)
  }

  // ---- Facts about the rows ----

  lemma GatheredOneMore<X>(results: seq<QueryResult>, result: QueryResult, variant: Variant,
                           part: QueryResult -> seq<X>)
    ensures Gathered(results + [result], variant, part)
         == if result.variant == variant then Gathered(results, variant, part) + part(result)
            else Gathered(results, variant, part)
  {
    assert (results + [result])[..|results|] == results;
  }

  /** Something was gathered exactly under the names that the rows mention. */
  lemma {:induction false} GatheredExactly<X>(results: seq<QueryResult>, variant: Variant,
                                              part: QueryResult -> seq<X>)
    ensures |Gathered(results, variant, part)| > 0
       <==> exists r :: r in results && r.variant == variant && |part(r)| > 0
  {
    if results != [] {
      var last, init := results[|results| - 1], results[..|results| - 1];
      GatheredExactly(init, variant, part);
      assert results == init + [last];
    }
  }

  lemma {:induction false} QueryIdsMeaning(results: seq<QueryResult>, variant: Variant, queryId: string)
    ensures queryId in QueryIds(results, variant)
       <==> exists r :: r in results && r.variant == variant && r.queryId == queryId
  {
    if results != [] {
      var last := results[|results| - 1];
      var init := results[..|results| - 1];
      QueryIdsMeaning(init, variant, queryId);
      assert results == init + [last];
    }
  }

  lemma NoDuplicatesOfMore(results: seq<QueryResult>, result: QueryResult)
    ensures NoDuplicates(results + [result])
       <==> (NoDuplicates(results)
             && !(exists r :: r in results && r.variant == result.variant && r.queryId == result.queryId))
  {
    var all := results + [result];
    if NoDuplicates(all) {
      forall i, j | 0 <= i < j < |results| && results[i].variant == results[j].variant
        ensures results[i].queryId != results[j].queryId
      {
        assert all[i] == results[i] && all[j] == results[j];
      }
      forall r | r in results && r.variant == result.variant ensures r.queryId != result.queryId {
        var i :| 0 <= i < |results| && results[i] == r;
        assert all[i] == r && all[|results|] == result;
      }
    }
    if NoDuplicates(results)
        && !(exists r :: r in results && r.variant == result.variant && r.queryId == result.queryId) {
      forall i, j | 0 <= i < j < |all| && all[i].variant == all[j].variant ensures all[i].queryId != all[j].queryId {
        assert all[i] in results;
        if j < |results| { assert results[i] == all[i] && results[j] == all[j]; }
      }
    }
  }

  lemma DuplicatesStay(results: seq<QueryResult>, n: nat)
    requires n <= |results| && !NoDuplicates(results[..n])
    ensures !NoDuplicates(results)
  {
    var i, j :| 0 <= i < j < n && results[..n][i].variant == results[..n][j].variant
                && results[..n][i].queryId == results[..n][j].queryId;
    assert results[i] == results[..n][i] && results[j] == results[..n][j];
  }

  lemma NamesAreDistinct()
    ensures Distinct(RETRIEVAL_METRIC_NAMES)
  {
    assert |NDCG_AT_10| == 10 && |RECALL_AT_10| == 12 && |RECALL_AT_100| == 13 && |MRR_AT_10| == 9;
  }

  lemma RowNamesMeaning(result: QueryResult, names: seq<string>, metric: string)
    ensures metric in RowNames(result, names) <==> |RowValues(result, names, metric)| > 0
  {
    NamedMeaning(JudgeEntries(result), metric);
    NamedMeaning(CostEntries(result), metric);
    EntryNamesMeaning(JudgeEntries(result), metric);
    EntryNamesMeaning(CostEntries(result), metric);
  }

  lemma EntryNamesMeaning(entries: seq<Entry>, metric: string)
    ensures metric in EntryNames(entries) <==> exists i :: 0 <= i < |entries| && entries[i].0 == metric
  {
    if i :| 0 <= i < |entries| && entries[i].0 == metric { assert entries[i] in entries; }
  }

  lemma ValueNamesMeaning(results: seq<QueryResult>, variant: Variant, names: seq<string>, metric: string)
    ensures metric in ValueNames(results, variant, names) <==> |ValuesOf(results, variant, names, metric)| > 0
  {
    GatheredExactly(results, variant, ValuePart(names, metric));
    forall r ensures metric in RowNames(r, names) <==> |ValuePart(names, metric)(r)| > 0 {
      RowNamesMeaning(r, names, metric);
    }
  }

  lemma StageNamesMeaning(results: seq<QueryResult>, variant: Variant, stage: string)
    ensures stage in StageNames(results, variant) <==> |DurationsOf(results, variant, stage)| > 0
  {
    GatheredExactly(results, variant, DurationPart(stage));
    forall r: QueryResult
      ensures (exists e :: e in r.timings && e.0 == stage) <==> |DurationPart(stage)(r)| > 0
    {
      NamedMeaning(r.timings, stage);
      EntryNamesMeaning(r.timings, stage);
    }
  }

  /** Every required metric is scored on the queries of the variant's rows. */
  lemma {:induction false} ScoredIds(results: seq<QueryResult>, variant: Variant, names: seq<string>, metric: string)
    requires metric in names
    ensures Ids(PairedScoresOf(results, variant, names, metric)) == QueryIds(results, variant)
  {
    if results != [] {
      ScoredIds(results[..|results| - 1], variant, names, metric);
    }
  }

  // ---- The first pass ----

  datatype Tables = Tables(
    metricValues: Table<Variant, string, real>, pairedValues: Table<Variant, string, Scored>,
    latencyValues: Table<Variant, string, real>)

  ghost predicate Tabulates(tables: Tables, results: seq<QueryResult>, names: seq<string>) {
    && (forall v, m :: Get(tables.metricValues, v, m) == ValuesOf(results, v, names, m))
    && (forall v, m :: Get(tables.pairedValues, v, m) == PairedScoresOf(results, v, names, m))
    && (forall v, s :: Get(tables.latencyValues, v, s) == DurationsOf(results, v, s))
    && NoEmptyLists(tables.metricValues) && NoEmptyLists(tables.latencyValues)
  }

  ghost predicate Seen(results: seq<QueryResult>, result: QueryResult) {
    exists x :: x in results && x.variant == result.variant && x.queryId == result.queryId
  }

  lemma RequiredOnce(result: QueryResult, names: seq<string>, metric: string)
    requires Distinct(names)
    ensures Named(RequiredEntries(result, names), metric) == if metric in names then [ScoreIn(result, metric)] else []
    ensures Named(PairedEntries(result, names), metric) == RowScores(result, names, metric)
  {
    if metric in names {
      var i :| 0 <= i < |names| && names[i] == metric;
      NamedOnce(RequiredEntries(result, names), i);
      NamedOnce(PairedEntries(result, names), i);
    } else {
      NamedMeaning(RequiredEntries(result, names), metric);
      NamedMeaning(PairedEntries(result, names), metric);
    }
  }

  /** Whether the row's query is among those scored for its variant, whichever metric is looked at. */
  ghost predicate ShowsSeen(paired: Table<Variant, string, Scored>, result: QueryResult, names: seq<string>, seen: bool)
  {
    forall m <- names :: result.queryId in Ids(Get(paired, result.variant, m)) <==> seen
  }

  lemma TablesShowSeen(tables: Tables, results: seq<QueryResult>, result: QueryResult, names: seq<string>)
    requires Tabulates(tables, results, names)
    ensures ShowsSeen(tables.pairedValues, result, names, Seen(results, result))
  {
    forall m | m in names ensures result.queryId in Ids(Get(tables.pairedValues, result.variant, m))
                                  <==> Seen(results, result)
    {
      ScoredIds(results, result.variant, names, m);
      QueryIdsMeaning(results, result.variant, result.queryId);
    }
  }

  /** While a row is entered, its next metric still shows the earlier rows alone. */
  lemma NextIsUntouched(paired: Table<Variant, string, Scored>, result: QueryResult, names: seq<string>, k: nat)
    requires Distinct(names) && k < |names|
    ensures Get(AppendAll(paired, result.variant, PairedEntries(result, names)[..k]), result.variant, names[k])
         == Get(paired, result.variant, names[k])
  {
    assert PairedEntries(result, names)[..k] == PairedEntries(result, names[..k]);
    assert names[k] !in names[..k];
    RequiredOnce(result, names[..k], names[k]);
    AppendAllMeaning(paired, result.variant, PairedEntries(result, names[..k]), result.variant, names[k]);
    assert Get(paired, result.variant, names[k]) + [] == Get(paired, result.variant, names[k]);
  }

  /** Whether the next score may be entered, and that entering it is one more step of entering all. */
  lemma NextEntry(tables: Tables, result: QueryResult, names: seq<string>, k: nat, seen: bool)
    requires ShowsSeen(tables.pairedValues, result, names, seen) && Distinct(names) && k < |names|
    ensures var v, required, pairs := result.variant, RequiredEntries(result, names), PairedEntries(result, names);
            var values := AppendAll(tables.metricValues, v, required[..k]);
            var paired := AppendAll(tables.pairedValues, v, pairs[..k]);
            var score := ScoreIn(result, names[k]);
            && (result.queryId in Ids(Get(paired, v, names[k])) <==> seen)
            && AppendAll(tables.metricValues, v, required[..k + 1]) == Append(values, v, names[k], score)
            && AppendAll(tables.pairedValues, v, pairs[..k + 1])
               == Append(paired, v, names[k], Scored(result.queryId, score))
  {
    var required, pairs := RequiredEntries(result, names), PairedEntries(result, names);
    NextIsUntouched(tables.pairedValues, result, names, k);
    assert names[k] in names;
    assert required[..k + 1] == required[..k] + [required[k]] && pairs[..k + 1] == pairs[..k] + [pairs[k]];
    AppendAllOneMore(tables.metricValues, result.variant, required[..k], names[k], ScoreIn(result, names[k]));
    AppendAllOneMore(tables.pairedValues, result.variant, pairs[..k], names[k],
                     Scored(result.queryId, ScoreIn(result, names[k])));
  }

  /** The required scores of one row, which must all be there, for a query that was not seen under its variant. */
  method RecordRequired(tables: Tables, result: QueryResult, names: seq<string>, ghost seen: bool)
    returns (r: Outcome<Tables>)
    requires ShowsSeen(tables.pairedValues, result, names, seen) && Distinct(names) && names != []
    ensures r.Ok? <==> (forall m <- names :: m in result.scores) && !seen
    ensures r.Ok? ==> r.value == Tables(
                AppendAll(tables.metricValues, result.variant, RequiredEntries(result, names)),
                AppendAll(tables.pairedValues, result.variant, PairedEntries(result, names)), tables.latencyValues)
  {
    var v, values, paired := result.variant, tables.metricValues, tables.pairedValues;
    ghost var required, pairs := RequiredEntries(result, names), PairedEntries(result, names);
    for k := 0 to |names|
      invariant forall j :: 0 <= j < k ==> names[j] in result.scores
      invariant k > 0 ==> !seen
      invariant values == AppendAll(tables.metricValues, v, required[..k])
      invariant paired == AppendAll(tables.pairedValues, v, pairs[..k])
    {
      var metric := names[k];
      if metric !in result.scores { return Err(MissingMetric); }
      NextEntry(tables, result, names, k, seen);
      if result.queryId in Ids(Get(paired, v, metric)) { return Err(DuplicateResult); }
      values := Append(values, v, metric, result.scores[metric]);
      paired := Append(paired, v, metric, Scored(result.queryId, result.scores[metric]));
    }
    assert required[..|names|] == required && pairs[..|names|] == pairs;
    return Ok(Tables(values, paired, tables.latencyValues));
  }

  method RecordResult(tables: Tables, ghost results: seq<QueryResult>, result: QueryResult, names: seq<string>)
    returns (r: Outcome<Tables>)
    requires Tabulates(tables, results, names) && Distinct(names) && names != []
    ensures r.Ok? <==> (forall m <- names :: m in result.scores) && !Seen(results, result)
    ensures r.Ok? ==> Tabulates(r.value, results + [result], names)
  {
    TablesShowSeen(tables, results, result, names);
    var recorded := RecordRequired(tables, result, names, Seen(results, result));
    if recorded.Err? { return recorded; }
    var v := result.variant;
    var latencies := AppendEach(tables.latencyValues, v, result.timings);
    var values, others := AppendOthers(recorded.value.metricValues, v, result.scores, names);
    values := AppendEach(values, v, JudgeEntries(result));
    values := AppendEach(values, v, CostEntries(result));
    r := Ok(Tables(values, recorded.value.pairedValues, latencies));
    AllTogether(tables.metricValues, v, RequiredEntries(result, names), others, JudgeEntries(result),
                CostEntries(result));
    RowIsTabulated(tables, r.value, results, result, names, others);
  }

  lemma AllTogether(table: Table<Variant, string, real>, v: Variant, a: seq<Entry>, b: seq<Entry>, c: seq<Entry>,
                    d: seq<Entry>)
    ensures AppendAll(AppendAll(AppendAll(AppendAll(table, v, a), v, b), v, c), v, d)
         == AppendAll(table, v, (a + b) + (c + d))
  {
    AppendAllTogether(table, v, a, b);
    AppendAllTogether(AppendAll(table, v, a + b), v, c, d);
    AppendAllTogether(table, v, a + b, c + d);
  }

  lemma RowIsTabulated(before: Tables, after: Tables, results: seq<QueryResult>, result: QueryResult,
                       names: seq<string>, others: seq<Entry>)
    requires Tabulates(before, results, names) && Distinct(names)
    requires forall m :: Named(others, m) == if m in result.scores && m !in names then [result.scores[m]] else []
    requires after.metricValues
          == AppendAll(before.metricValues, result.variant,
                       (RequiredEntries(result, names) + others) + (JudgeEntries(result) + CostEntries(result)))
    requires after.pairedValues == AppendAll(before.pairedValues, result.variant, PairedEntries(result, names))
    requires after.latencyValues == AppendAll(before.latencyValues, result.variant, result.timings)
    ensures Tabulates(after, results + [result], names)
  {
    forall v, m
      ensures Get(after.metricValues, v, m) == ValuesOf(results + [result], v, names, m)
      ensures Get(after.pairedValues, v, m) == PairedScoresOf(results + [result], v, names, m)
      ensures Get(after.latencyValues, v, m) == DurationsOf(results + [result], v, m)
      ensures NoEmptyLists(after.metricValues) && NoEmptyLists(after.latencyValues)
    {
      EntriesOfRow(result, names, others, m);
      RequiredOnce(result, names, m);
      Entered(before.metricValues, results, result, v, m, ValuePart(names, m),
              (RequiredEntries(result, names) + others) + (JudgeEntries(result) + CostEntries(result)));
      Entered(before.pairedValues, results, result, v, m, ScorePart(names, m), PairedEntries(result, names));
      Entered(before.latencyValues, results, result, v, m, DurationPart(m), result.timings);
    }
  }

  /** Entering what a row contributes to a name keeps the list under that name what all rows contribute. */
  lemma Entered<X>(table: Table<Variant, string, X>, results: seq<QueryResult>, result: QueryResult, v: Variant,
                   m: string, part: QueryResult -> seq<X>, items: seq<(string, X)>)
    requires Get(table, v, m) == Gathered(results, v, part) && Named(items, m) == part(result)
    ensures Get(AppendAll(table, result.variant, items), v, m) == Gathered(results + [result], v, part)
    ensures NoEmptyLists(table) ==> NoEmptyLists(AppendAll(table, result.variant, items))
  {
    AppendAllMeaning(table, result.variant, items, v, m);
    GatheredOneMore(results, result, v, part);
  }

  lemma EntriesOfRow(result: QueryResult, names: seq<string>, others: seq<Entry>, m: string)
    requires Distinct(names)
    requires Named(others, m) == if m in result.scores && m !in names then [result.scores[m]] else []
    ensures Named(RequiredEntries(result, names) + others + (JudgeEntries(result) + CostEntries(result)), m)
         == RowValues(result, names, m)
  {
    var own, rest := RequiredEntries(result, names) + others, JudgeEntries(result) + CostEntries(result);
    NamedAppend(own, rest, m);
    NamedAppend(JudgeEntries(result), CostEntries(result), m);
    OwnEntries(result, names, others, m);
    Associates(OwnValues(result, names, m), Named(JudgeEntries(result), m), Named(CostEntries(result), m));
  }

  lemma OwnEntries(result: QueryResult, names: seq<string>, others: seq<Entry>, m: string)
    requires Distinct(names)
    requires Named(others, m) == if m in result.scores && m !in names then [result.scores[m]] else []
    ensures Named(RequiredEntries(result, names) + others, m) == OwnValues(result, names, m)
  {
    NamedAppend(RequiredEntries(result, names), others, m);
    RequiredOnce(result, names, m);
  }

  /** All rows: each belongs to the run, carries the required metrics, and is the only one for its query and variant. */
  method CollectScores(run: ReportRun, results: seq<QueryResult>) returns (r: Outcome<Tables>)
    ensures r.Ok? <==> (forall x <- results :: WellFormed(run, x)) && NoDuplicates(results)
    ensures r.Ok? ==> Tabulates(r.value, results, RETRIEVAL_METRIC_NAMES)
  {
    var tables := Tables(map[], map[], map[]);
    var names := RETRIEVAL_METRIC_NAMES;
    NamesAreDistinct();
    for i := 0 to |results|
      invariant forall j :: 0 <= j < i ==> WellFormed(run, results[j])
      invariant NoDuplicates(results[..i])
      invariant Tabulates(tables, results[..i], names)
    {
      assert results[..i + 1] == results[..i] + [results[i]];
      assert results[i] in results;
      if results[i].runId != run.id { return Err(WrongRun); }
      if results[i].variant !in run.variants { return Err(UnexpectedVariant); }
      NoDuplicatesOfMore(results[..i], results[i]);
      var recorded := RecordResult(tables, results[..i], results[i], names);
      if recorded.Err? {
        if !NoDuplicates(results[..i + 1]) { DuplicatesStay(results, i + 1); }
        return Err(recorded.error);
      }
      tables := recorded.value;
    }
    assert results[..|results|] == results;
    return Ok(tables);
  }
}
