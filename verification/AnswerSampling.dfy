/** Which rows are answered and judged: the sample's, under the answered variants, and no others. */
module AnswerSampling {
  import opened Prelude
  import opened GenerationContract
  import opened EvaluationContract
  import opened EvaluationStore
  import opened EvaluationPlan
  import opened Sampling
  import opened EvaluationRunner
  import opened RunnerSafety
  import opened RunnerHistory
  import opened RunnerCancellation

  // ---- In the run's own terms ----

  /** The work of a query of the dataset's sample of the sample, under a variant that answers are asked for. */
  ghost predicate Sampled(env: Env, dataset: set<EvaluationQuery>, sample: set<EvaluationQuery>) {
    exists selected :: IsSample(selected, dataset, env.spec.sampleSize, env.spec.seed, env.digest)
                       && IsSample(sample, selected, env.spec.generationSampleSize, env.spec.seed, env.digest)
  }

  predicate AnsweredVariant(spec: EvalRunSpec, v: Variant) {
    v in spec.variants && (spec.generationVariants != [] ==> v in spec.generationVariants)
  }

  ghost predicate OfSample(env: Env, sample: set<EvaluationQuery>, w: Work) {
    AnsweredVariant(env.spec, w.variant) && exists q :: q in sample && q.externalId == w.query
  }

  /** A verdict belongs to an answer that a provider gave, and to one of the configured profiles. */
  predicate VerdictsFit(spec: EvalRunSpec, row: ResultRow) {
    row.judgeRecords != [] ==>
      && row.answer.Some? && row.answer.value.outcome in {Answered, Abstained, CitationError}
      && forall record <- row.judgeRecords :: record.profile in spec.judgeProfiles
  }

  // ---- The answer work is the sample's ----

  lemma AnswerWorkIsSampled(env: Env, dataset: Queries, queries: Queries) returns (sample: set<EvaluationQuery>)
    requires ValidEnv(env) && dataset in env.versions && Select(env, dataset) == Ok(queries)
    requires GenerationQueries(env, queries).Ok?
    ensures Sampled(env, ToSet(dataset), sample)
    ensures forall w :: w in AnswerWork(env, queries) <==> OfSample(env, sample, w)
    ensures |sample| == if env.spec.generationSampleSize.Some? then env.spec.generationSampleSize.value else |queries|
    ensures sample <= ToSet(queries) && |ToSet(queries)| == |queries|
  {
    var spec := env.spec;
    var generation := SelectEvaluationQueries(queries, spec.generationSampleSize, spec.seed, env.digest).value;
    SelectionMeaning(dataset, spec.sampleSize, spec.seed, env.digest);
    SelectionIsSample(dataset, spec.sampleSize, spec.seed, env.digest);
    SelectionIsSample(queries, spec.generationSampleSize, spec.seed, env.digest);
    DistinctCardinality(queries);
    sample := ToSet(generation);
    forall w ensures w in AnswerWork(env, queries) <==> OfSample(env, sample, w) {
      WorkListMembers(generation, spec.AnsweredVariants(), w);
      AnsweredVariantExactly(spec, w.variant);
      assert forall q :: q in generation <==> q in sample;
    }
  }

  lemma AnsweredVariantExactly(spec: EvalRunSpec, v: Variant)
    requires spec.Valid()
    ensures v in spec.AnsweredVariants() <==> AnsweredVariant(spec, v)
  {}

  // ---- Over every history ----

  predicate Touched(row: ResultRow) {
    row.answer.Some? || row.judgeRecords != []
  }

  ghost predicate OfAnswerWork(env: Env, w: Work) {
    exists queries :: Selectable(env, queries) && w in AnswerWork(env, queries)
  }

  ghost predicate TouchedFits(env: Env, rows: map<Work, ResultRow>) {
    forall w <- rows :: RowFits(env, w, rows[w])
  }

  ghost predicate RowFits(env: Env, w: Work, row: ResultRow) {
    && (Touched(row) ==> env.spec.generationEnabled && OfAnswerWork(env, w))
    && VerdictsFit(env.spec, row)
  }

  /** Only a run with generation enabled comes to the stages that answer and judge. */
  predicate StageFits(env: Env, l: Local) {
    l.InGeneration? || l.Asking? || l.Drafted? || l.InJudging? || l.Judged? ==> env.spec.generationEnabled
  }

  lemma NewRowsFit(env: Env, w: Work, response: Response)
    ensures RowFits(env, w, NewRow(response.ranking, response.scores))
  {}

  lemma HeadIsAnswerWork(env: Env, db: Db, l: Local)
    requires LocalInvariant(env, db, l) && (l.Drafted? || l.Judged?)
    ensures l.work != [] && l.work[0] in l.persisted && l.work[0] in db.rows && OfAnswerWork(env, l.work[0])
    ensures RowAdvance(l.persisted[l.work[0]], db.rows[l.work[0]])
  {
    SuffixMember(l.work, AnswerWork(env, l.queries), l.work[0]);
  }

  lemma AnswerFits(env: Env, w: Work, row: ResultRow, answer: AnswerResponse, scores: Scores,
                   gold: Option<SciFactLabel>)
    requires RowFits(env, w, row) && env.spec.generationEnabled && OfAnswerWork(env, w)
    ensures RowFits(env, w, AnswerRow(row, answer, scores, gold))
  {}

  lemma JudgeableExactly(row: ResultRow)
    ensures Judgeable(row) <==> row.answer.Some? && row.answer.value.outcome in {Answered, Abstained, CitationError}
  {}

  lemma VerdictsStayFit(env: Env, w: Work, row: ResultRow, verdicts: seq<JudgeRecord>)
    requires RowFits(env, w, row) && env.spec.generationEnabled && OfAnswerWork(env, w) && Judgeable(row)
    requires RowConsistent(row) && Profiles(verdicts) <= ToSet(env.spec.judgeProfiles)
    ensures RowFits(env, w, JudgeAll(row, verdicts))
  {
    var after := JudgeAll(row, verdicts);
    JudgeAllConsistent(row, verdicts);
    JudgeAllProfiles(row, verdicts);
    JudgeableExactly(row);
    forall record | record in after.judgeRecords ensures record.profile in env.spec.judgeProfiles {
      assert record.profile in Profiles(after.judgeRecords);
      if record.profile in Profiles(row.judgeRecords) {
        var known :| known in row.judgeRecords && known.profile == record.profile;
      } else {
        assert record.profile in ToSet(env.spec.judgeProfiles);
      }
    }
  }

  lemma UpdatedRowFits(env: Env, rows: map<Work, ResultRow>, w: Work, row: ResultRow)
    requires TouchedFits(env, rows) && RowFits(env, w, row)
    ensures TouchedFits(env, rows[w := row])
  {}

  lemma StoredAnswer(env: Env, db: Db, l: Local)
    requires l.Drafted? && l.work != [] && l.work[0] in db.rows
    ensures Continue(env, db, l).0.rows
         == db.rows[l.work[0] := AnswerRow(db.rows[l.work[0]], l.answer, AnswerScores(l.metrics), l.goldLabel)]
  {}

  lemma StoreAnswerFits(env: Env, db: Db, l: Local)
    requires LocalInvariant(env, db, l) && l.Drafted? && StageFits(env, l) && TouchedFits(env, db.rows)
    ensures TouchedFits(env, Continue(env, db, l).0.rows)
  {
    HeadIsAnswerWork(env, db, l);
    var w, row := l.work[0], db.rows[l.work[0]];
    StoredAnswer(env, db, l);
    AnswerFits(env, w, row, l.answer, AnswerScores(l.metrics), l.goldLabel);
    UpdatedRowFits(env, db.rows, w, AnswerRow(row, l.answer, AnswerScores(l.metrics), l.goldLabel));
  }

  lemma StoreVerdictsFits(env: Env, db: Db, l: Local)
    requires DbInvariant(env, db) && LocalInvariant(env, db, l) && l.Judged? && StageFits(env, l)
    requires TouchedFits(env, db.rows)
    ensures TouchedFits(env, Continue(env, db, l).0.rows)
  {
    HeadIsAnswerWork(env, db, l);
    var row := db.rows[l.work[0]];
    assert RowConsistent(row) && Judgeable(row);
    VerdictsStayFit(env, l.work[0], row, l.verdicts);
    UpdatedRowFits(env, db.rows, l.work[0], JudgeAll(row, l.verdicts));
    assert StoreVerdicts(db, l).0.rows == db.rows[l.work[0] := JudgeAll(row, l.verdicts)];
  }

  lemma StoreSearchFits(env: Env, db: Db, l: Local)
    requires LocalInvariant(env, db, l) && l.Stamped? && TouchedFits(env, db.rows)
    ensures TouchedFits(env, Continue(env, db, l).0.rows)
  {
    NewRowsFit(env, l.todo[0].work, l.response);
    var row := NewRow(l.response.ranking, l.response.scores);
    assert Store(db, l).0.rows == db.rows || Store(db, l).0.rows == db.rows[l.todo[0].work := row];
  }

  lemma StepFits(env: Env, db: Db, l: Local, action: Action)
    requires DbInvariant(env, db) && LocalInvariant(env, db, l) && StageFits(env, l) && TouchedFits(env, db.rows)
    ensures TouchedFits(env, Next(env, db, l, action).0.rows)
  {
    if action.Proceed? {
      if l.Drafted? {
        StoreAnswerFits(env, db, l);
      } else if l.Judged? {
        StoreVerdictsFits(env, db, l);
      } else if l.Stamped? {
        StoreSearchFits(env, db, l);
      } else {
        OtherStepsAddNoRow(env, db, l);
      }
    }
  }

  lemma EarlyStagesFit(env: Env, db: Db, l: Local)
    requires !HoldsSnapshot(l) && !l.Opening?
    ensures !HoldsSnapshot(Continue(env, db, l).1)
  {
    if l.Idle? || l.Raised? || l.MarkingFailed? || l.Fetched? || l.Prepared? || l.Planned? {
      EarlyStepsHoldNone(env, db, l);
    } else {
      RetrievalStepsHoldNone(env, db, l);
    }
  }

  lemma NextStageFits(env: Env, db: Db, l: Local, action: Action)
    requires LocalInvariant(env, db, l) && StageFits(env, l)
    ensures StageFits(env, Next(env, db, l, action).1)
  {
    if !action.Proceed? {
      OutsideStepsKeepSnapshot(env, db, l, action);
    } else if l.Opening? {
      OpeningFacts(env, db, l);
      OpenedSnapshot(env, db, l.state, l.queries);
    } else if l.InGeneration? || l.Asking? || l.Drafted? {
      GenerationStepsKeepSnapshot(env, db, l);
    } else if l.InJudging? || l.Judged? {
      JudgeStepsKeepSnapshot(env, db, l);
    } else {
      EarlyStagesFit(env, db, l);
    }
  }

  ghost predicate Fits(env: Env, world: World) {
    TouchedFits(env, world.db.rows) && forall r :: StageFits(env, world.At(r))
  }

  lemma EventFits(env: Env, world: World, event: Event)
    requires Sound(env, world) && Fits(env, world)
    ensures Fits(env, Apply(env, world, event))
  {
    var next := Apply(env, world, event);
    if event.Step? {
      Standing(env, world, event.runner);
      StepFits(env, world.db, world.At(event.runner), event.action);
      NextStageFits(env, world.db, world.At(event.runner), event.action);
    }
    forall r ensures StageFits(env, next.At(r)) {
      if event.Step? && event.runner == r {
        OwnStep(env, world, event);
      } else {
        OthersLeaveStanding(env, world, event, r);
      }
    }
  }

  lemma {:induction false} HistoriesFit(env: Env, events: seq<Event>)
    requires ValidEnv(env) && Possible(env, events)
    ensures Fits(env, Execute(env, events))
  {
    if events != [] {
      var last := |events| - 1;
      assert forall e <- events[..last] :: e in events;
      HistoriesFit(env, events[..last]);
      EveryHistoryIsSound(env, events[..last]);
      EventFits(env, Execute(env, events[..last]), events[last]);
    }
  }

  /**
   * In every history a row carries an answer or a verdict only if generation is enabled, its variant is an answered one
   * and its query belongs to a sample of the selection; and a verdict only besides an answer that a provider gave, by a
   * configured profile.
   */
  lemma OnlyTheSampleIsAnswered(env: Env, world: World, w: Work)
    requires ValidEnv(env) && Reachable(env, world) && w in world.db.rows
    ensures VerdictsFit(env.spec, world.db.rows[w])
    ensures Touched(world.db.rows[w]) ==>
              && env.spec.generationEnabled
              && exists d, sample :: d in env.versions && Sampled(env, ToSet(d), sample) && OfSample(env, sample, w)
  {
    var events :| Possible(env, events) && Execute(env, events) == world;
    HistoriesFit(env, events);
    assert RowFits(env, w, world.db.rows[w]);
    if Touched(world.db.rows[w]) {
      var queries :| Selectable(env, queries) && w in AnswerWork(env, queries);
      var d :| d in env.versions && Select(env, d) == Ok(queries) && queries != [];
      var sample := AnswerWorkIsSampled(env, d, queries);
    }
  }

  // ---- The stages a run goes through ----

  /** A run is only ever generating or judging if that was asked for. */
  predicate StateFits(spec: EvalRunSpec, state: RunState) {
    (state == Generating ==> spec.generationEnabled)
    && (state == Judging ==> spec.generationEnabled && spec.judgeProfiles != [])
  }

  lemma StepStateFits(env: Env, db: Db, l: Local, action: Action)
    requires StageFits(env, l) && StateFits(env.spec, db.state)
    ensures StateFits(env.spec, Next(env, db, l, action).0.state)
  {}

  lemma {:induction false} HistoriesStateFits(env: Env, events: seq<Event>)
    requires ValidEnv(env) && Possible(env, events)
    ensures StateFits(env.spec, Execute(env, events).db.state)
  {
    if events != [] {
      var last := |events| - 1;
      assert forall e <- events[..last] :: e in events;
      HistoriesStateFits(env, events[..last]);
      HistoriesFit(env, events[..last]);
      var world := Execute(env, events[..last]);
      if events[last].Step? {
        StepStateFits(env, world.db, world.At(events[last].runner), events[last].action);
      }
    }
  }

  /** In every history a run generates only if that is enabled, and judges only if it has judges besides. */
  lemma StagesAreAskedFor(env: Env, world: World)
    requires ValidEnv(env) && Reachable(env, world)
    ensures world.db.state == Generating ==> env.spec.generationEnabled
    ensures world.db.state == Judging ==> env.spec.generationEnabled && env.spec.judgeProfiles != []
  {
    var events :| Possible(env, events) && Execute(env, events) == world;
    HistoriesStateFits(env, events);
  }

  /** The work of one of these queries under any of the run's variants. */
  ghost predicate OfSelection(spec: EvalRunSpec, selected: set<EvaluationQuery>, w: Work) {
    w.variant in spec.variants && exists q :: q in selected && q.externalId == w.query
  }

  lemma SelectionWork(spec: EvalRunSpec, queries: Queries, w: Work)
    ensures w in WorkSet(queries, spec.variants) <==> OfSelection(spec, ToSet(queries), w)
  {
    WorkSetMeaning(queries, spec.variants, w);
    assert forall q :: q in queries <==> q in ToSet(queries);
  }

  lemma SelectionSize(env: Env, dataset: Queries)
    requires ValidEnv(env) && dataset in env.versions && Select(env, dataset).Ok?
    ensures IsSample(ToSet(Select(env, dataset).value), ToSet(dataset), env.spec.sampleSize, env.spec.seed, env.digest)
    ensures |Select(env, dataset).value|
         == if env.spec.sampleSize.Some? then env.spec.sampleSize.value else |dataset|
  {
    SelectionMeaning(dataset, env.spec.sampleSize, env.spec.seed, env.digest);
    SelectionIsSample(dataset, env.spec.sampleSize, env.spec.seed, env.digest);
  }

  /** The rows of a completed run are those of a sample of the dataset under every variant, as many as asked for. */
  lemma CompletedRunsRetrieveTheSample(env: Env, world: World, dataset: Queries)
    requires ValidEnv(env) && Reachable(env, world) && env.versions == {dataset} && world.db.state == Completed
    ensures exists selected ::
              && IsSample(selected, ToSet(dataset), env.spec.sampleSize, env.spec.seed, env.digest)
              && forall w :: w in world.db.rows <==> OfSelection(env.spec, selected, w)
    ensures |world.db.rows|
         == (if env.spec.sampleSize.Some? then env.spec.sampleSize.value else |dataset|) * |env.spec.variants|
  {
    CompletedRunsCoverTheSelection(env, world, dataset);
    SelectionSize(env, dataset);
    var queries := Select(env, dataset).value;
    forall w ensures w in world.db.rows <==> OfSelection(env.spec, ToSet(queries), w) {
      SelectionWork(env.spec, queries, w);
      assert w in world.db.rows <==> w in world.db.rows.Keys;
    }
  }

  // ---- At completion ----

  /** The works that carry an answer. */
  function AnsweredWork(rows: map<Work, ResultRow>): set<Work> {
    set w <- rows | rows[w].answer.Some?
  }

  /** How many queries are asked about: the sample's, the selection's if there is no sample, or the dataset's. */
  function AskedQueries(spec: EvalRunSpec, dataset: Queries): nat {
    if spec.generationSampleSize.Some? then spec.generationSampleSize.value
    else if spec.sampleSize.Some? then spec.sampleSize.value
    else |dataset|
  }

  function AskedVariants(spec: EvalRunSpec): nat {
    if spec.generationVariants != [] then |spec.generationVariants| else |spec.variants|
  }

  lemma CompletedWork(env: Env, world: World, dataset: Queries) returns (queries: Queries)
    requires ValidEnv(env) && Reachable(env, world) && env.versions == {dataset}
    requires world.db.state == Completed && env.spec.generationEnabled
    ensures Select(env, dataset) == Ok(queries) && GenerationQueries(env, queries).Ok?
    ensures AnsweredWork(world.db.rows) == ToSet(AnswerWork(env, queries))
    ensures forall w <- AnswerWork(env, queries) :: Settled(env, world.db.rows, w)
  {
    ReachableIsSound(env, world);
    var answered :| Selectable(env, answered) && AllAnswered(env, world.db, answered);
    OneVersion(env, dataset, answered);
    queries := answered;
    CompletedRunsAreSettled(env, world, dataset);
    AnsweredExactly(env, world, dataset, queries);
  }

  /** A completed run has answered exactly the sample's queries under the answered variants, as many as asked for. */
  lemma CompletedRunsAnswerTheSample(env: Env, world: World, dataset: Queries)
    requires ValidEnv(env) && Reachable(env, world) && env.versions == {dataset}
    requires world.db.state == Completed && env.spec.generationEnabled
    ensures exists sample :: Sampled(env, ToSet(dataset), sample)
                             && forall w :: w in AnsweredWork(world.db.rows) <==> OfSample(env, sample, w)
    ensures |AnsweredWork(world.db.rows)| == AskedQueries(env.spec, dataset) * AskedVariants(env.spec)
  {
    var queries := CompletedWork(env, world, dataset);
    AnswerWorkSize(env, dataset, queries);
    var sample := AnswerWorkIsSampled(env, dataset, queries);
    forall w ensures w in AnsweredWork(world.db.rows) <==> OfSample(env, sample, w) {
      assert w in AnsweredWork(world.db.rows) <==> w in AnswerWork(env, queries);
    }
  }

  /** In a completed run every answer that a provider gave has a verdict of every configured profile and no other. */
  lemma CompletedRunsJudgeEveryAnswer(env: Env, world: World, dataset: Queries, w: Work)
    requires ValidEnv(env) && Reachable(env, world) && env.versions == {dataset}
    requires world.db.state == Completed && env.spec.generationEnabled && w in AnsweredWork(world.db.rows)
    ensures (set record <- world.db.rows[w].judgeRecords :: record.profile)
         == if world.db.rows[w].answer.value.outcome in {Answered, Abstained, CitationError}
            then ToSet(env.spec.judgeProfiles) else {}
  {
    var queries := CompletedWork(env, world, dataset);
    OnlyTheSampleIsAnswered(env, world, w);
    assert w in AnswerWork(env, queries) && Settled(env, world.db.rows, w);
    SettledProfiles(env, world.db.rows[w]);
  }

  lemma AnsweredExactly(env: Env, world: World, dataset: Queries, queries: Queries)
    requires ValidEnv(env) && Reachable(env, world) && env.versions == {dataset}
    requires Select(env, dataset) == Ok(queries)
    requires forall w <- AnswerWork(env, queries) :: HasAnswer(world.db.rows, w)
    ensures AnsweredWork(world.db.rows) == ToSet(AnswerWork(env, queries))
  {
    var events :| Possible(env, events) && Execute(env, events) == world;
    HistoriesFit(env, events);
    forall w | w in AnsweredWork(world.db.rows) ensures w in AnswerWork(env, queries) {
      assert RowFits(env, w, world.db.rows[w]);
      var some :| Selectable(env, some) && w in AnswerWork(env, some);
      OneVersion(env, dataset, some);
    }
  }

  lemma AnswerWorkSize(env: Env, dataset: Queries, queries: Queries)
    requires ValidEnv(env) && dataset in env.versions && Select(env, dataset) == Ok(queries)
    requires GenerationQueries(env, queries).Ok?
    ensures |ToSet(AnswerWork(env, queries))| == AskedQueries(env.spec, dataset) * AskedVariants(env.spec)
  {
    var spec := env.spec;
    var generation := SelectEvaluationQueries(queries, spec.generationSampleSize, spec.seed, env.digest).value;
    SelectionMeaning(dataset, spec.sampleSize, spec.seed, env.digest);
    SelectionMeaning(queries, spec.generationSampleSize, spec.seed, env.digest);
    assert UniqueExternalIds(generation);
    DistinctIdsOf(generation);
    assert Distinct(spec.AnsweredVariants()) && |spec.AnsweredVariants()| == AskedVariants(spec);
    WorkListDistinct(generation, spec.AnsweredVariants());
    DistinctCardinality(AnswerWork(env, queries));
  }

  lemma SettledProfiles(env: Env, row: ResultRow)
    requires VerdictsFit(env.spec, row) && row.answer.Some?
    requires Judgeable(row) ==> MissingProfiles(env.spec, row) == {}
    ensures Profiles(row.judgeRecords)
         == if row.answer.value.outcome in {Answered, Abstained, CitationError} then ToSet(env.spec.judgeProfiles)
            else {}
  {
    JudgeableExactly(row);
    if Judgeable(row) {
      assert forall p <- env.spec.judgeProfiles :: p in Profiles(row.judgeRecords)
                                                   || p in MissingProfiles(env.spec, row);
    }
  }
}
