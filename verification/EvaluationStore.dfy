/** The tables of one evaluation run and the transactions the runner commits to them. */
module EvaluationStore {
  import opened Prelude
  import opened GenerationContract
  import opened EvaluationContract
  import RetrievalMetrics

  /** One unit of evaluation work: a query, by its external identifier, under one variant. */
  datatype Work = Work(query: string, variant: Variant)

  type Scores = map<string, real>

  datatype JudgeVerdict = JudgeVerdict(faithfulness: real, relevance: real, usage: Usage)

  datatype JudgeRecord = JudgeRecord(profile: Profile, verdict: JudgeVerdict)

  datatype ResultRow = ResultRow(
    rankedDocumentIds: seq<string>, deterministicScores: Scores, answer: Option<AnswerResponse>,
    judgeRecords: seq<JudgeRecord>, judgeScores: Scores, scifactGoldLabel: Option<SciFactLabel>, tokenCost: real)

  /** The run's own row, and its result rows under their unique key. */
  datatype Db = Db(
    state: RunState, completedQueries: nat, totalQueries: nat,
    indexFingerprints: map<Variant, Fingerprint>, rows: map<Work, ResultRow>)

  datatype StoreError =
    ResultNotFound | UnknownVariant | IndexChanged | InvalidTransition | InvalidProgress | ProgressDecreased |
    TotalChanged | TooManyResults

  // ---- Score dictionaries ----

  const NDCG_AT_10: string := "ndcg_at_10"
  const RECALL_AT_10: string := "recall_at_10"
  const RECALL_AT_100: string := "recall_at_100"
  const MRR_AT_10: string := "mrr_at_10"

  const RETRIEVAL_METRIC_NAMES: seq<string> := [NDCG_AT_10, RECALL_AT_10, RECALL_AT_100, MRR_AT_10]

  function RetrievalScores(scores: RetrievalMetrics.Scores): Scores {
    map[NDCG_AT_10 := scores.ndcgAt10, RECALL_AT_10 := scores.recallAt10,
        RECALL_AT_100 := scores.recallAt100, MRR_AT_10 := scores.mrrAt10]
  }

  datatype ScifactScores = ScifactScores(labelAccuracy: real, rationalePrecision: real)

  datatype AnswerMetrics = AnswerMetrics(
    citationValidity: real, contextPrecision: real, abstentionCorrectness: real, scifact: Option<ScifactScores>)

  function AnswerScores(metrics: AnswerMetrics): Scores {
    var scores := map["citation_validity" := metrics.citationValidity, "context_precision" := metrics.contextPrecision,
                      "abstention_correctness" := metrics.abstentionCorrectness];
    if metrics.scifact.None? then scores
    else scores["scifact_label_accuracy" := metrics.scifact.value.labelAccuracy]
               ["scifact_rationale_precision" := metrics.scifact.value.rationalePrecision]
  }

  lemma AnswerScoresLeaveRetrievalAlone(metrics: AnswerMetrics)
    ensures forall m <- RETRIEVAL_METRIC_NAMES :: m !in AnswerScores(metrics)
  {
    assert |NDCG_AT_10| == 10 && |RECALL_AT_10| == 12 && |RECALL_AT_100| == 13 && |MRR_AT_10| == 9;
    assert |"citation_validity"| == 17 && |"context_precision"| == 17 && |"abstention_correctness"| == 22;
    assert |"scifact_label_accuracy"| == 22 && |"scifact_rationale_precision"| == 27;
  }

  /** A new row carries the four retrieval scores, each under its own name, and nothing else yet. */
  lemma NewRowNamesScores(ranking: seq<string>, scores: RetrievalMetrics.Scores)
    ensures var row := NewRow(ranking, scores);
            && row.rankedDocumentIds == ranking && row.deterministicScores.Keys == ToSet(RETRIEVAL_METRIC_NAMES)
            && |row.deterministicScores| == 4
            && ScoredAs(row.deterministicScores, "ndcg_at_10", scores.ndcgAt10)
            && ScoredAs(row.deterministicScores, "recall_at_10", scores.recallAt10)
            && ScoredAs(row.deterministicScores, "recall_at_100", scores.recallAt100)
            && ScoredAs(row.deterministicScores, "mrr_at_10", scores.mrrAt10)
            && row.answer.None? && row.judgeRecords == [] && row.judgeScores == map[] && row.tokenCost == 0.0
  {
    assert |"ndcg_at_10"| == 10 && |"recall_at_10"| == 12 && |"recall_at_100"| == 13 && |"mrr_at_10"| == 9;
  }

  predicate ScoredAs(scores: Scores, name: string, value: real) {
    name in scores && scores[name] == value
  }

  /** An answer adds each of its metrics under its own name, those of a claim verification only if it was one. */
  lemma AnswerRowNamesScores(row: ResultRow, answer: AnswerResponse, metrics: AnswerMetrics,
                             goldLabel: Option<SciFactLabel>)
    requires row.answer.None?
    ensures var scores := AnswerRow(row, answer, AnswerScores(metrics), goldLabel).deterministicScores;
            && ScoredAs(scores, "citation_validity", metrics.citationValidity)
            && ScoredAs(scores, "context_precision", metrics.contextPrecision)
            && ScoredAs(scores, "abstention_correctness", metrics.abstentionCorrectness)
            && (metrics.scifact.Some? ==>
                  && ScoredAs(scores, "scifact_label_accuracy", metrics.scifact.value.labelAccuracy)
                  && ScoredAs(scores, "scifact_rationale_precision", metrics.scifact.value.rationalePrecision))
            && forall name <- row.deterministicScores :: name !in AnswerScores(metrics) ==>
                 ScoredAs(scores, name, row.deterministicScores[name])
  {
    assert "citation_validity"[1] == 'i' && "context_precision"[1] == 'o' && "abstention_correctness"[1] == 'b';
    assert |"citation_validity"| == 17 && |"context_precision"| == 17 && |"abstention_correctness"| == 22;
    assert |"scifact_label_accuracy"| == 22 && |"scifact_rationale_precision"| == 27;
    assert "scifact_label_accuracy"[0] == 's' && "abstention_correctness"[0] == 'a';
  }

  /** A new verdict's two scores are stored under its profile's name. */
  lemma VerdictNamesScores(row: ResultRow, record: JudgeRecord)
    requires record.profile !in Profiles(row.judgeRecords)
    ensures var after := JudgeOne(row, record);
            && after.judgeRecords == row.judgeRecords + [record]
            && ScoredAs(after.judgeScores, record.profile + ".faithfulness", record.verdict.faithfulness)
            && ScoredAs(after.judgeScores, record.profile + ".relevance", record.verdict.relevance)
            && after.tokenCost == row.tokenCost + record.verdict.usage.costUsd
  {
    assert |record.profile + ".faithfulness"| != |record.profile + ".relevance"|;
  }

  // ---- Transactions ----

  function AfterPin(spec: EvalRunSpec, db: Db, variant: Variant, fingerprint: Fingerprint)
    : Result<Db, StoreError>
  {
    if variant !in spec.variants then Err(UnknownVariant)
    else if variant in db.indexFingerprints && db.indexFingerprints[variant] != fingerprint then Err(IndexChanged)
    else Ok(db.(indexFingerprints := db.indexFingerprints[variant := fingerprint]))
  }

  function AfterState(db: Db, target: RunState): Result<Db, StoreError> {
    if TransitionAllowed(db.state, target) then Ok(db.(state := target)) else Err(InvalidTransition)
  }

  function AfterProgress(db: Db, completed: int, total: int): Result<Db, StoreError> {
    if completed < 0 || total < 0 || completed > total then Err(InvalidProgress)
    else if completed < db.completedQueries then Err(ProgressDecreased)
    else if db.totalQueries != 0 && db.totalQueries != total then Err(TotalChanged)
    else Ok(db.(completedQueries := completed, totalQueries := total))
  }

  function NewRow(ranking: seq<string>, scores: RetrievalMetrics.Scores): ResultRow {
    ResultRow(ranking, RetrievalScores(scores), None, [], map[], None, 0.0)
  }

  /** Insert unless the key exists; the new count may not exceed the configured total. */
  function AfterResult(db: Db, work: Work, row: ResultRow): Result<Db, StoreError> {
    if work in db.rows then Ok(db)
    else
      var rows := db.rows[work := row];
      if |rows| > db.totalQueries then Err(TooManyResults)
      else Ok(db.(rows := rows, completedQueries := |rows|))
  }

  function AnswerRow(row: ResultRow, answer: AnswerResponse, scores: Scores, goldLabel: Option<SciFactLabel>)
    : ResultRow
  {
    if row.answer.Some? then row
    else row.(answer := Some(answer), deterministicScores := row.deterministicScores + scores,
              scifactGoldLabel := goldLabel, tokenCost := row.tokenCost + answer.usage.costUsd)
  }

  function AfterAnswer(db: Db, work: Work, answer: AnswerResponse, scores: Scores, goldLabel: Option<SciFactLabel>)
    : Result<Db, StoreError>
  {
    if work !in db.rows then Err(ResultNotFound)
    else Ok(db.(rows := db.rows[work := AnswerRow(db.rows[work], answer, scores, goldLabel)]))
  }

  function Profiles(records: seq<JudgeRecord>): set<Profile> {
    set r <- records :: r.profile
  }

  function FaithfulnessName(profile: Profile): string { profile + ".faithfulness" }

  function RelevanceName(profile: Profile): string { profile + ".relevance" }

  function JudgeOne(row: ResultRow, record: JudgeRecord): ResultRow {
    if record.profile in Profiles(row.judgeRecords) then row
    else row.(judgeRecords := row.judgeRecords + [record],
              judgeScores := row.judgeScores[FaithfulnessName(record.profile) := record.verdict.faithfulness]
                                            [RelevanceName(record.profile) := record.verdict.relevance],
              tokenCost := row.tokenCost + record.verdict.usage.costUsd)
  }

  function JudgeAll(row: ResultRow, verdicts: seq<JudgeRecord>): ResultRow {
    if verdicts == [] then row
    else JudgeOne(JudgeAll(row, verdicts[..|verdicts| - 1]), verdicts[|verdicts| - 1])
  }

  function AfterJudges(db: Db, work: Work, verdicts: seq<JudgeRecord>): Result<Db, StoreError> {
    if work !in db.rows then Err(ResultNotFound)
    else Ok(db.(rows := db.rows[work := JudgeAll(db.rows[work], verdicts)]))
  }

  // ---- What every row satisfies ----

  function CostOf(records: seq<JudgeRecord>): real {
    if records == [] then 0.0 else CostOf(records[..|records| - 1]) + records[|records| - 1].verdict.usage.costUsd
  }

  function AnswerCost(answer: Option<AnswerResponse>): real {
    if answer.None? then 0.0 else answer.value.usage.costUsd
  }

  function ScoresOf(records: seq<JudgeRecord>): Scores {
    if records == [] then map[]
    else
      var last := records[|records| - 1];
      ScoresOf(records[..|records| - 1])[FaithfulnessName(last.profile) := last.verdict.faithfulness]
                                        [RelevanceName(last.profile) := last.verdict.relevance]
  }

  predicate DistinctProfiles(records: seq<JudgeRecord>) {
    forall i, j :: 0 <= i < j < |records| ==> records[i].profile != records[j].profile
  }

  /** The stored cost is the answer's plus every stored verdict's, each profile charged once. */
  predicate RowConsistent(row: ResultRow) {
    && row.tokenCost == AnswerCost(row.answer) + CostOf(row.judgeRecords)
    && row.judgeScores == ScoresOf(row.judgeRecords)
    && DistinctProfiles(row.judgeRecords)
    && (forall m <- RETRIEVAL_METRIC_NAMES :: m in row.deterministicScores)
  }

  lemma NewRowConsistent(ranking: seq<string>, scores: RetrievalMetrics.Scores)
    ensures RowConsistent(NewRow(ranking, scores))
  {}

  predicate SameRetrievalScores(before: ResultRow, after: ResultRow) {
    forall m <- RETRIEVAL_METRIC_NAMES :: m in before.deterministicScores ==>
      m in after.deterministicScores && after.deterministicScores[m] == before.deterministicScores[m]
  }

  /** How a row may change: answers and verdicts are added once and never replaced. */
  predicate RowAdvance(before: ResultRow, after: ResultRow) {
    && after.rankedDocumentIds == before.rankedDocumentIds
    && SameRetrievalScores(before, after)
    && (before.answer.Some? ==>
          && after.answer == before.answer
          && after.deterministicScores == before.deterministicScores
          && after.scifactGoldLabel == before.scifactGoldLabel)
    && before.judgeRecords <= after.judgeRecords
  }

  lemma AnswerRowAdvances(row: ResultRow, answer: AnswerResponse, metrics: AnswerMetrics,
                          goldLabel: Option<SciFactLabel>)
    requires RowConsistent(row)
    ensures RowConsistent(AnswerRow(row, answer, AnswerScores(metrics), goldLabel))
    ensures RowAdvance(row, AnswerRow(row, answer, AnswerScores(metrics), goldLabel))
  {
    AnswerScoresLeaveRetrievalAlone(metrics);
  }

  lemma AppendedSums(records: seq<JudgeRecord>, record: JudgeRecord)
    ensures CostOf(records + [record]) == CostOf(records) + record.verdict.usage.costUsd
    ensures ScoresOf(records + [record])
         == ScoresOf(records)[FaithfulnessName(record.profile) := record.verdict.faithfulness]
                             [RelevanceName(record.profile) := record.verdict.relevance]
  {
    assert (records + [record])[..|records|] == records;
  }

  lemma JudgeOneAdvances(row: ResultRow, record: JudgeRecord)
    requires RowConsistent(row)
    ensures RowConsistent(JudgeOne(row, record)) && RowAdvance(row, JudgeOne(row, record))
    ensures JudgeOne(row, record).answer == row.answer
  {
    AppendedSums(row.judgeRecords, record);
    AppendedProfiles(row.judgeRecords, record);
  }

  lemma AppendedProfiles(records: seq<JudgeRecord>, record: JudgeRecord)
    ensures Profiles(records + [record]) == Profiles(records) + {record.profile}
    ensures DistinctProfiles(records) && record.profile !in Profiles(records) ==> DistinctProfiles(records + [record])
  {
    var all := records + [record];
    assert forall r :: r in all <==> r in records || r == record;
    if record.profile !in Profiles(records) {
      forall i | 0 <= i < |records| ensures records[i].profile != record.profile {
        assert records[i] in records;
      }
    }
  }

  lemma RowAdvanceTransitive(a: ResultRow, b: ResultRow, c: ResultRow)
    requires RowAdvance(a, b) && RowAdvance(b, c)
    ensures RowAdvance(a, c)
  {}

  lemma {:induction false} JudgeAllConsistent(row: ResultRow, verdicts: seq<JudgeRecord>)
    requires RowConsistent(row)
    ensures RowConsistent(JudgeAll(row, verdicts)) && JudgeAll(row, verdicts).answer == row.answer
  {
    if verdicts != [] {
      var last := |verdicts| - 1;
      JudgeAllConsistent(row, verdicts[..last]);
      JudgeOneAdvances(JudgeAll(row, verdicts[..last]), verdicts[last]);
    }
  }

  lemma {:induction false} JudgeAllAdvances(row: ResultRow, verdicts: seq<JudgeRecord>)
    requires RowConsistent(row)
    ensures RowAdvance(row, JudgeAll(row, verdicts))
  {
    if verdicts != [] {
      var last := |verdicts| - 1;
      var rest := JudgeAll(row, verdicts[..last]);
      JudgeAllAdvances(row, verdicts[..last]);
      JudgeAllConsistent(row, verdicts[..last]);
      JudgeOneAdvances(rest, verdicts[last]);
      RowAdvanceTransitive(row, rest, JudgeOne(rest, verdicts[last]));
    }
  }

  lemma JudgeOneProfiles(row: ResultRow, record: JudgeRecord)
    ensures Profiles(JudgeOne(row, record).judgeRecords) == Profiles(row.judgeRecords) + {record.profile}
  {
    AppendedProfiles(row.judgeRecords, record);
  }

  lemma SplitProfiles(records: seq<JudgeRecord>)
    requires records != []
    ensures Profiles(records) == Profiles(records[..|records| - 1]) + {records[|records| - 1].profile}
  {
    AppendedProfiles(records[..|records| - 1], records[|records| - 1]);
    assert records == records[..|records| - 1] + [records[|records| - 1]];
  }

  /** Every profile asked about ends up with a verdict, whether it was new or already stored. */
  lemma {:induction false} JudgeAllProfiles(row: ResultRow, verdicts: seq<JudgeRecord>)
    ensures Profiles(JudgeAll(row, verdicts).judgeRecords) == Profiles(row.judgeRecords) + Profiles(verdicts)
  {
    if verdicts != [] {
      var last := |verdicts| - 1;
      JudgeAllProfiles(row, verdicts[..last]);
      JudgeOneProfiles(JudgeAll(row, verdicts[..last]), verdicts[last]);
      SplitProfiles(verdicts);
    }
  }

  /** Repeating an update, as a resumed run may, changes nothing and charges nothing. */
  lemma {:induction false} RepeatedJudgingIsFree(row: ResultRow, verdicts: seq<JudgeRecord>)
    requires Profiles(verdicts) <= Profiles(row.judgeRecords)
    ensures JudgeAll(row, verdicts) == row
  {
    if verdicts != [] {
      var last := |verdicts| - 1;
      assert verdicts[last] in verdicts;
      assert forall r <- verdicts[..last] :: r in verdicts;
      RepeatedJudgingIsFree(row, verdicts[..last]);
    }
  }

  // ---- What the whole store satisfies, and how it may change ----

  predicate RowsConsistent(rows: map<Work, ResultRow>) {
    forall w <- rows :: RowConsistent(rows[w])
  }

  /** No row exists before its variant's index is pinned, and only the run's own variants are pinned. */
  predicate PinsCover(spec: EvalRunSpec, db: Db) {
    && (forall v <- db.indexFingerprints :: v in spec.variants)
    && (forall w <- db.rows :: w.variant in db.indexFingerprints)
  }

  predicate StoreInvariant(spec: EvalRunSpec, db: Db) {
    db.completedQueries == |db.rows| <= db.totalQueries && PinsCover(spec, db) && RowsConsistent(db.rows)
  }

  predicate PinsKept(before: map<Variant, Fingerprint>, after: map<Variant, Fingerprint>) {
    forall v <- before :: v in after && after[v] == before[v]
  }

  predicate RowsKept(before: map<Work, ResultRow>, after: map<Work, ResultRow>) {
    forall w <- before :: w in after && RowAdvance(before[w], after[w])
  }

  predicate Advances(before: Db, after: Db) {
    && before.state.Stage() <= after.state.Stage()
    && (before.state.Terminal() ==> after.state == before.state)
    && before.completedQueries <= after.completedQueries
    && (before.totalQueries != 0 ==> after.totalQueries == before.totalQueries)
    && PinsKept(before.indexFingerprints, after.indexFingerprints)
    && RowsKept(before.rows, after.rows)
  }

  lemma RowsKeptReflexive(rows: map<Work, ResultRow>)
    ensures RowsKept(rows, rows)
  {}

  lemma RowsKeptTransitive(a: map<Work, ResultRow>, b: map<Work, ResultRow>, c: map<Work, ResultRow>)
    requires RowsKept(a, b) && RowsKept(b, c)
    ensures RowsKept(a, c)
  {
    forall w | w in a ensures w in c && RowAdvance(a[w], c[w]) {
      RowAdvanceTransitive(a[w], b[w], c[w]);
    }
  }

  lemma RowsKeptUpdate(rows: map<Work, ResultRow>, work: Work, row: ResultRow)
    requires work in rows ==> RowAdvance(rows[work], row)
    ensures RowsKept(rows, rows[work := row])
  {
    RowsKeptReflexive(rows);
  }

  lemma RowsConsistentUpdate(rows: map<Work, ResultRow>, work: Work, row: ResultRow)
    requires RowsConsistent(rows) && RowConsistent(row)
    ensures RowsConsistent(rows[work := row])
  {}

  lemma AdvancesReflexive(db: Db)
    ensures Advances(db, db)
  {
    RowsKeptReflexive(db.rows);
  }

  lemma AdvancesTransitive(a: Db, b: Db, c: Db)
    requires Advances(a, b) && Advances(b, c)
    ensures Advances(a, c)
  {
    RowsKeptTransitive(a.rows, b.rows, c.rows);
  }

  lemma PinAdvances(spec: EvalRunSpec, db: Db, variant: Variant, fingerprint: Fingerprint)
    requires StoreInvariant(spec, db) && AfterPin(spec, db, variant, fingerprint).Ok?
    ensures StoreInvariant(spec, AfterPin(spec, db, variant, fingerprint).value)
    ensures Advances(db, AfterPin(spec, db, variant, fingerprint).value)
  {
    RowsKeptReflexive(db.rows);
  }

  lemma StateAdvances(spec: EvalRunSpec, db: Db, target: RunState)
    requires StoreInvariant(spec, db) && AfterState(db, target).Ok?
    ensures StoreInvariant(spec, AfterState(db, target).value) && Advances(db, AfterState(db, target).value)
  {
    RowsKeptReflexive(db.rows);
  }

  /** A progress snapshot that was once true can only be written back while it is still true. */
  lemma ProgressAdvances(spec: EvalRunSpec, db: Db, completed: int, total: int)
    requires StoreInvariant(spec, db) && completed <= db.completedQueries
    requires AfterProgress(db, completed, total).Ok?
    ensures AfterProgress(db, completed, total).value == db.(totalQueries := total)
    ensures StoreInvariant(spec, AfterProgress(db, completed, total).value)
    ensures Advances(db, AfterProgress(db, completed, total).value)
  {
    RowsKeptReflexive(db.rows);
  }

  lemma ResultAdvances(spec: EvalRunSpec, db: Db, work: Work, row: ResultRow)
    requires StoreInvariant(spec, db) && work.variant in db.indexFingerprints && RowConsistent(row)
    requires AfterResult(db, work, row).Ok?
    ensures StoreInvariant(spec, AfterResult(db, work, row).value)
    ensures Advances(db, AfterResult(db, work, row).value)
  {
    if work in db.rows {
      AdvancesReflexive(db);
    } else {
      InsertAdvances(spec, db, work, row);
    }
  }

  lemma ResultKeys(db: Db, work: Work, row: ResultRow)
    requires AfterResult(db, work, row).Ok?
    ensures AfterResult(db, work, row).value.rows.Keys == db.rows.Keys + {work}
  {}

  lemma InsertAdvances(spec: EvalRunSpec, db: Db, work: Work, row: ResultRow)
    requires StoreInvariant(spec, db) && work.variant in db.indexFingerprints && RowConsistent(row)
    requires work !in db.rows && |db.rows[work := row]| <= db.totalQueries
    ensures var rows := db.rows[work := row];
            && StoreInvariant(spec, db.(rows := rows, completedQueries := |rows|))
            && Advances(db, db.(rows := rows, completedQueries := |rows|))
  {
    RowsKeptUpdate(db.rows, work, row);
    RowsConsistentUpdate(db.rows, work, row);
  }

  lemma RowUpdateAdvances(spec: EvalRunSpec, db: Db, work: Work, row: ResultRow)
    requires StoreInvariant(spec, db) && work in db.rows
    requires RowConsistent(row) && RowAdvance(db.rows[work], row)
    ensures StoreInvariant(spec, db.(rows := db.rows[work := row]))
    ensures Advances(db, db.(rows := db.rows[work := row]))
    ensures db.rows[work := row].Keys == db.rows.Keys
  {
    assert db.rows[work := row].Keys == db.rows.Keys;
    assert |db.rows[work := row]| == |db.rows|;
    RowsKeptUpdate(db.rows, work, row);
    RowsConsistentUpdate(db.rows, work, row);
  }

  lemma AnswerAdvances(spec: EvalRunSpec, db: Db, work: Work, answer: AnswerResponse, metrics: AnswerMetrics,
                       goldLabel: Option<SciFactLabel>)
    requires StoreInvariant(spec, db) && work in db.rows
    ensures StoreInvariant(spec, AfterAnswer(db, work, answer, AnswerScores(metrics), goldLabel).value)
    ensures Advances(db, AfterAnswer(db, work, answer, AnswerScores(metrics), goldLabel).value)
    ensures AfterAnswer(db, work, answer, AnswerScores(metrics), goldLabel).value.rows.Keys == db.rows.Keys
    ensures AfterAnswer(db, work, answer, AnswerScores(metrics), goldLabel).value.rows[work].answer.Some?
  {
    assert RowConsistent(db.rows[work]);
    AnswerRowAdvances(db.rows[work], answer, metrics, goldLabel);
    RowUpdateAdvances(spec, db, work, AnswerRow(db.rows[work], answer, AnswerScores(metrics), goldLabel));
  }

  lemma JudgesAdvance(spec: EvalRunSpec, db: Db, work: Work, verdicts: seq<JudgeRecord>)
    requires StoreInvariant(spec, db) && work in db.rows
    ensures StoreInvariant(spec, AfterJudges(db, work, verdicts).value)
    ensures Advances(db, AfterJudges(db, work, verdicts).value)
    ensures AfterJudges(db, work, verdicts).value.rows.Keys == db.rows.Keys
    ensures AfterJudges(db, work, verdicts).value.rows[work].answer == db.rows[work].answer
    ensures Profiles(AfterJudges(db, work, verdicts).value.rows[work].judgeRecords)
         == Profiles(db.rows[work].judgeRecords) + Profiles(verdicts)
  {
    assert RowConsistent(db.rows[work]);
    JudgeAllConsistent(db.rows[work], verdicts);
    JudgeAllAdvances(db.rows[work], verdicts);
    JudgeAllProfiles(db.rows[work], verdicts);
    RowUpdateAdvances(spec, db, work, JudgeAll(db.rows[work], verdicts));
  }

  // ---- The repositories ----

  /** The tables as the repositories update them; a method that reports an error has rolled back. */
  class Repository {
    const spec: EvalRunSpec
    var state: RunState
    var completedQueries: nat
    var totalQueries: nat
    var indexFingerprints: map<Variant, Fingerprint>
    var rows: map<Work, ResultRow>

    /** A run as it is first inserted. */
    constructor (spec: EvalRunSpec)
      ensures this.spec == spec && Contents() == Db(Created, 0, 0, map[], map[])
      ensures StoreInvariant(spec, Contents())
    {
      this.spec := spec;
      state := Created;
      completedQueries := 0;
      totalQueries := 0;
      indexFingerprints := map[];
      rows := map[];
    }

    function Contents(): Db
      reads this
    {
      Db(state, completedQueries, totalQueries, indexFingerprints, rows)
    }

    method PinIndexFingerprint(variant: Variant, fingerprint: Fingerprint) returns (error: Option<StoreError>)
      modifies this`indexFingerprints
      ensures var r := AfterPin(spec, old(Contents()), variant, fingerprint);
              && error == (if r.Ok? then None else Some(r.error))
              && Contents() == (if r.Ok? then r.value else old(Contents()))
    {
      if variant !in spec.variants { return Some(UnknownVariant); }
      if variant in indexFingerprints && indexFingerprints[variant] != fingerprint { return Some(IndexChanged); }
      indexFingerprints := indexFingerprints[variant := fingerprint];
      return None;
    }

    method SetState(target: RunState) returns (error: Option<StoreError>)
      modifies this`state
      ensures var r := AfterState(old(Contents()), target);
              && error == (if r.Ok? then None else Some(r.error))
              && Contents() == (if r.Ok? then r.value else old(Contents()))
    {
      if !TransitionAllowed(state, target) { return Some(InvalidTransition); }
      state := target;
      return None;
    }

    method SetProgress(completed: int, total: int) returns (error: Option<StoreError>)
      modifies this`completedQueries, this`totalQueries
      ensures var r := AfterProgress(old(Contents()), completed, total);
              && error == (if r.Ok? then None else Some(r.error))
              && Contents() == (if r.Ok? then r.value else old(Contents()))
    {
      if completed < 0 || total < 0 || completed > total { return Some(InvalidProgress); }
      if completed < completedQueries { return Some(ProgressDecreased); }
      if totalQueries != 0 && totalQueries != total { return Some(TotalChanged); }
      completedQueries := completed;
      totalQueries := total;
      return None;
    }

    method AddResult(work: Work, row: ResultRow) returns (inserted: bool, error: Option<StoreError>)
      modifies this`rows, this`completedQueries
      ensures var r := AfterResult(old(Contents()), work, row);
              && error == (if r.Ok? then None else Some(r.error))
              && Contents() == (if r.Ok? then r.value else old(Contents()))
              && (inserted <==> r.Ok? && work !in old(rows))
    {
      if work in rows { return false, None; }
      var before := rows;
      rows := rows[work := row];
      if |rows| > totalQueries {
        rows := before;
        return false, Some(TooManyResults);
      }
      completedQueries := |rows|;
      return true, None;
    }

    method UpdateAnswer(work: Work, answer: AnswerResponse, scores: Scores, goldLabel: Option<SciFactLabel>)
      returns (error: Option<StoreError>)
      modifies this`rows
      ensures var r := AfterAnswer(old(Contents()), work, answer, scores, goldLabel);
              && error == (if r.Ok? then None else Some(r.error))
              && Contents() == (if r.Ok? then r.value else old(Contents()))
    {
      if work !in rows { return Some(ResultNotFound); }
      var row := rows[work];
      if row.answer.None? {
        row := row.(answer := Some(answer));
        row := row.(deterministicScores := row.deterministicScores + scores);
        row := row.(scifactGoldLabel := goldLabel);
        row := row.(tokenCost := row.tokenCost + answer.usage.costUsd);
      }
      rows := rows[work := row];
      return None;
    }

    method UpdateJudges(work: Work, verdicts: seq<JudgeRecord>) returns (error: Option<StoreError>)
      modifies this`rows
      ensures var r := AfterJudges(old(Contents()), work, verdicts);
              && error == (if r.Ok? then None else Some(r.error))
              && Contents() == (if r.Ok? then r.value else old(Contents()))
    {
      if work !in rows { return Some(ResultNotFound); }
      var row := rows[work];
      var records, scores, newCost := row.judgeRecords, row.judgeScores, 0.0;
      for i := 0 to |verdicts|
        invariant JudgeAll(row, verdicts[..i])
               == row.(judgeRecords := records, judgeScores := scores, tokenCost := row.tokenCost + newCost)
      {
        var verdict := verdicts[i].verdict;
        assert verdicts[..i + 1][..i] == verdicts[..i];
        if verdicts[i].profile in Profiles(records) { continue; }
        records := records + [verdicts[i]];
        scores := scores[FaithfulnessName(verdicts[i].profile) := verdict.faithfulness];
        scores := scores[RelevanceName(verdicts[i].profile) := verdict.relevance];
        newCost := newCost + verdict.usage.costUsd;
      }
      assert verdicts[..|verdicts|] == verdicts;
      row := row.(judgeRecords := records, judgeScores := scores, tokenCost := row.tokenCost + newCost);
      rows := rows[work := row];
      return None;
    }
  }
}
