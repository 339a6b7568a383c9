/** Theorems about every history of an evaluation run: crashes, restarts, cancellations, overlapping runners. */
module RunnerHistory {
  import opened Prelude
  import opened EvaluationContract
  import opened EvaluationStore
  import opened EvaluationPlan
  import opened Sampling
  import opened EvaluationRunner
  import opened RunnerSafety
  import RetrievalMetrics

  // ---- Where every row came from ----

  predicate ScoresFrom(row: ResultRow, scores: RetrievalMetrics.Scores) {
    forall m <- RETRIEVAL_METRIC_NAMES ::
      m in row.deterministicScores && row.deterministicScores[m] == RetrievalScores(scores)[m]
  }

  /** The response was made under the run's configuration and the index pinned for its variant. */
  predicate MadeUnderPin(env: Env, db: Db, variant: Variant, response: Response) {
    && variant in env.variantHashes && response.variantHash == env.variantHashes[variant]
    && variant in db.indexFingerprints && response.indexFingerprint == db.indexFingerprints[variant]
  }

  predicate MadeFrom(row: ResultRow, response: Response) {
    row.rankedDocumentIds == response.ranking && ScoresFrom(row, response.scores)
  }

  predicate Provenance(env: Env, db: Db, origin: map<Work, Response>) {
    && origin.Keys == db.rows.Keys
    && forall w <- origin :: w in db.rows && MadeUnderPin(env, db, w.variant, origin[w])
        && MadeFrom(db.rows[w], origin[w])
  }

  ghost predicate Sound(env: Env, world: World) {
    && DbInvariant(env, world.db)
    && (forall r <- world.runners :: LocalInvariant(env, world.db, world.runners[r]))
    && Provenance(env, world.db, world.origin)
  }

  lemma MadeFromKept(before: ResultRow, after: ResultRow, response: Response)
    requires RowAdvance(before, after) && MadeFrom(before, response)
    ensures MadeFrom(after, response)
  {
    forall m | m in RETRIEVAL_METRIC_NAMES
      ensures m in after.deterministicScores && after.deterministicScores[m] == RetrievalScores(response.scores)[m]
    {
      assert m in before.deterministicScores;
    }
  }

  lemma ProvenanceKept(env: Env, before: Db, after: Db, origin: map<Work, Response>)
    requires Advances(before, after) && after.rows.Keys == before.rows.Keys && Provenance(env, before, origin)
    ensures Provenance(env, after, origin)
  {
    forall w | w in origin
      ensures w in after.rows && MadeUnderPin(env, after, w.variant, origin[w]) && MadeFrom(after.rows[w], origin[w])
    {
      MadeFromKept(before.rows[w], after.rows[w], origin[w]);
    }
  }

  lemma OtherStepsAddNoRow(env: Env, db: Db, l: Local)
    requires !l.Stamped? && !l.Drafted? && !l.Judged?
    ensures Continue(env, db, l).0.rows == db.rows
  {}

  lemma UpdatesAddNoRow(env: Env, db: Db, l: Local)
    requires (l.Drafted? || l.Judged?) && l.work != []
    ensures Continue(env, db, l).0.rows.Keys == db.rows.Keys
  {
    if l.Drafted? {
      assert Continue(env, db, l) == StoreAnswer(db, l);
    } else {
      assert Continue(env, db, l) == StoreVerdicts(db, l);
    }
  }

  lemma SearchesAddTheirRow(env: Env, db: Db, l: Local)
    requires l.Stamped? && l.todo != [] && l.todo[0].Search?
    ensures Continue(env, db, l).0.rows.Keys == db.rows.Keys
         || Continue(env, db, l).0.rows.Keys == db.rows.Keys + {l.todo[0].work}
  {
    var row := NewRow(l.response.ranking, l.response.scores);
    if AfterResult(db, l.todo[0].work, row).Ok? { ResultKeys(db, l.todo[0].work, row); }
  }

  /** Only storing a search result can add a row, and it adds the one it searched for. */
  lemma RowsComeFromSearches(env: Env, db: Db, l: Local, action: Action)
    requires LocalInvariant(env, db, l)
    ensures var after := Next(env, db, l, action).0;
            after.rows.Keys == db.rows.Keys || (l.Stamped? && after.rows.Keys == db.rows.Keys + {l.todo[0].work})
  {
    if action.Proceed? {
      if l.Stamped? {
        SearchesAddTheirRow(env, db, l);
      } else if l.Drafted? || l.Judged? {
        UpdatesAddNoRow(env, db, l);
      } else {
        OtherStepsAddNoRow(env, db, l);
      }
    }
  }

  lemma NewRowIsMadeFrom(response: Response)
    ensures MadeFrom(NewRow(response.ranking, response.scores), response)
  {}

  lemma StoredRowIsTheResponse(env: Env, db: Db, l: Local)
    requires LocalInvariant(env, db, l) && l.Stamped? && l.todo[0].work !in db.rows
    requires AfterResult(db, l.todo[0].work, NewRow(l.response.ranking, l.response.scores)).Ok?
    ensures var after := Continue(env, db, l).0;
            && after.rows == db.rows[l.todo[0].work := NewRow(l.response.ranking, l.response.scores)]
            && after.indexFingerprints == db.indexFingerprints
            && MadeUnderPin(env, after, l.todo[0].work.variant, l.response)
  {}

  lemma ProvenanceExtended(env: Env, before: Db, after: Db, origin: map<Work, Response>, work: Work, response: Response)
    requires Provenance(env, before, origin) && work !in before.rows
    requires after.rows == before.rows[work := NewRow(response.ranking, response.scores)]
    requires after.indexFingerprints == before.indexFingerprints && MadeUnderPin(env, after, work.variant, response)
    ensures Provenance(env, after, origin[work := response])
  {
    NewRowIsMadeFrom(response);
    assert origin[work := response].Keys == after.rows.Keys;
  }

  lemma StepProvenance(env: Env, db: Db, l: Local, action: Action, origin: map<Work, Response>)
    requires LocalInvariant(env, db, l) && Provenance(env, db, origin)
    requires Advances(db, Next(env, db, l, action).0)
    ensures Provenance(env, Next(env, db, l, action).0, OriginAfter(db, Next(env, db, l, action).0, l, origin))
  {
    var after := Next(env, db, l, action).0;
    RowsComeFromSearches(env, db, l, action);
    if after.rows.Keys == db.rows.Keys {
      ProvenanceKept(env, db, after, origin);
      assert l.Stamped? ==> l.todo[0].work in after.rows ==> l.todo[0].work in db.rows.Keys;
    } else {
      AddedBySearch(env, db, l, action, origin);
    }
  }

  lemma AddedBySearch(env: Env, db: Db, l: Local, action: Action, origin: map<Work, Response>)
    requires LocalInvariant(env, db, l) && Provenance(env, db, origin)
    requires l.Stamped? && Next(env, db, l, action).0.rows.Keys != db.rows.Keys
    ensures Provenance(env, Next(env, db, l, action).0, OriginAfter(db, Next(env, db, l, action).0, l, origin))
  {
    var work, row := l.todo[0].work, NewRow(l.response.ranking, l.response.scores);
    assert action.Proceed?;
    assert Next(env, db, l, action) == Store(db, l);
    assert AfterResult(db, work, row).Ok? && work !in db.rows;
    StoredRowIsTheResponse(env, db, l);
    ProvenanceExtended(env, db, Store(db, l).0, origin, work, l.response);
  }

  // ---- Every reachable world is sound ----

  lemma OtherRunnersKept(env: Env, world: World, after: Db)
    requires ValidEnv(env) && Sound(env, world) && DbKept(env, world.db, after)
    ensures forall r <- world.runners :: LocalInvariant(env, after, world.runners[r])
  {
    forall r | r in world.runners ensures LocalInvariant(env, after, world.runners[r]) {
      LocalInvariantKept(env, world.db, after, world.runners[r]);
    }
  }

  lemma AttemptSound(env: Env, world: World, target: RunState)
    requires ValidEnv(env) && Sound(env, world) && !PastRetrieval(target)
    ensures Sound(env, world.(db := Attempt(world.db, target))) && Advances(world.db, Attempt(world.db, target))
  {
    AttemptKeeps(env, world.db, target);
    OtherRunnersKept(env, world, Attempt(world.db, target));
    ProvenanceKept(env, world.db, Attempt(world.db, target), world.origin);
  }

  lemma StepSound(env: Env, world: World, r: RunnerId, action: Action)
    requires ValidEnv(env) && Sound(env, world) && (action.Load? ==> action.dataset in env.versions)
    ensures Sound(env, Apply(env, world, Step(r, action)))
    ensures Advances(world.db, Apply(env, world, Step(r, action)).db)
  {
    var l := world.At(r);
    var (after, next) := Next(env, world.db, l, action);
    NextKeeps(env, world.db, l, action);
    OtherRunnersKept(env, world, after);
    StepProvenance(env, world.db, l, action, world.origin);
  }

  lemma ApplySound(env: Env, world: World, event: Event)
    requires ValidEnv(env) && Sound(env, world)
    requires event.Step? && event.action.Load? ==> event.action.dataset in env.versions
    ensures Sound(env, Apply(env, world, event)) && Advances(world.db, Apply(env, world, event).db)
  {
    match event
    case Enqueue => AttemptSound(env, world, RunState.Queued);
    case Cancel => AttemptSound(env, world, RunState.Cancelled);
    case Step(r, action) => StepSound(env, world, r, action);
  }

  lemma {:induction false} EveryHistoryIsSound(env: Env, events: seq<Event>)
    requires ValidEnv(env) && Possible(env, events)
    ensures Sound(env, Execute(env, events))
  {
    if events != [] {
      var last := |events| - 1;
      EveryHistoryIsSound(env, events[..last]);
      assert events[last] in events;
      ApplySound(env, Execute(env, events[..last]), events[last]);
    }
  }

  /** Nothing committed is ever undone: pins and rows stay, answers and verdicts are never replaced. */
  lemma {:induction false} HistoryOnlyAdvances(env: Env, events: seq<Event>, earlier: nat)
    requires ValidEnv(env) && Possible(env, events) && earlier <= |events|
    ensures Advances(Execute(env, events[..earlier]).db, Execute(env, events).db)
  {
    if earlier == |events| {
      assert events[..earlier] == events;
      AdvancesReflexive(Execute(env, events).db);
    } else {
      var last := |events| - 1;
      HistoryOnlyAdvances(env, events[..last], earlier);
      assert events[..last][..earlier] == events[..earlier];
      EveryHistoryIsSound(env, events[..last]);
      assert events[last] in events;
      ApplySound(env, Execute(env, events[..last]), events[last]);
      AdvancesTransitive(Execute(env, events[..earlier]).db, Execute(env, events[..last]).db, Execute(env, events).db);
    }
  }

  /** Some history leads to this world. */
  ghost predicate Reachable(env: Env, world: World) {
    exists events :: Possible(env, events) && Execute(env, events) == world
  }

  /** Some history leads to one world and, further on, to the other. */
  ghost predicate Precedes(env: Env, earlier: World, later: World) {
    exists events, i: nat ::
      Possible(env, events) && i <= |events| && Execute(env, events[..i]) == earlier && Execute(env, events) == later
  }

  lemma ReachableIsSound(env: Env, world: World)
    requires ValidEnv(env) && Reachable(env, world)
    ensures Sound(env, world)
  {
    var events :| Possible(env, events) && Execute(env, events) == world;
    EveryHistoryIsSound(env, events);
  }

  /** A failed, cancelled or completed run stays so, whatever is redelivered afterwards. */
  lemma TerminalStatesAreFinal(env: Env, earlier: World, later: World)
    requires ValidEnv(env) && Precedes(env, earlier, later) && earlier.db.state.Terminal()
    ensures later.db.state == earlier.db.state
  {
    var events, i: nat :| Possible(env, events) && i <= |events|
                          && Execute(env, events[..i]) == earlier && Execute(env, events) == later;
    HistoryOnlyAdvances(env, events, i);
  }

  /** Once pinned, a variant's index stays the same; once stored, a row keeps its ranking, answer and verdicts. */
  lemma CommittedStays(env: Env, earlier: World, later: World)
    requires ValidEnv(env) && Precedes(env, earlier, later)
    ensures PinsKept(earlier.db.indexFingerprints, later.db.indexFingerprints)
    ensures RowsKept(earlier.db.rows, later.db.rows)
    ensures earlier.db.completedQueries <= later.db.completedQueries
  {
    var events, i: nat :| Possible(env, events) && i <= |events|
                          && Execute(env, events[..i]) == earlier && Execute(env, events) == later;
    HistoryOnlyAdvances(env, events, i);
  }

  /**
   * At completion the rows are exactly queries times variants of one selection, counted by both progress fields, and
   * every variant's index is pinned.
   */
  lemma CompletedRunsAreExact(env: Env, world: World)
    requires ValidEnv(env) && Reachable(env, world) && world.db.state == Completed
    ensures world.db.completedQueries == world.db.totalQueries == |world.db.rows|
    ensures exists queries :: Selectable(env, queries) && Covers(env, world.db, queries)
  {
    ReachableIsSound(env, world);
  }

  lemma OneVersion(env: Env, dataset: Queries, queries: Queries)
    requires env.versions == {dataset}
    ensures Selectable(env, queries) <==> Select(env, dataset) == Ok(queries) && queries != []
  {
    assert dataset in env.versions;
  }

  /** With an unchanging dataset the selection at completion is the one the run's sample size and seed determine. */
  lemma CompletedRunsCoverTheSelection(env: Env, world: World, dataset: Queries)
    requires ValidEnv(env) && Reachable(env, world) && env.versions == {dataset} && world.db.state == Completed
    ensures Select(env, dataset).Ok?
    ensures world.db.rows.Keys == WorkSet(Select(env, dataset).value, env.spec.variants)
    ensures |world.db.rows| == |Select(env, dataset).value| * |env.spec.variants|
  {
    CompletedRunsAreExact(env, world);
    var queries :| Selectable(env, queries) && Covers(env, world.db, queries);
    OneVersion(env, dataset, queries);
  }

  /** At completion every asked-for answer is stored, and every judgeable one carries every profile's verdict. */
  lemma CompletedRunsAreSettled(env: Env, world: World, dataset: Queries)
    requires ValidEnv(env) && Reachable(env, world) && env.versions == {dataset}
    requires world.db.state == Completed && env.spec.generationEnabled
    ensures Select(env, dataset).Ok?
    ensures forall w <- AnswerWork(env, Select(env, dataset).value) :: Settled(env, world.db.rows, w)
  {
    ReachableIsSound(env, world);
    var queries :| Selectable(env, queries) && AllAnswered(env, world.db, queries);
    OneVersion(env, dataset, queries);
    if env.spec.judgeProfiles != [] {
      var judged :| Selectable(env, judged) && AllJudged(env, world.db, judged);
      OneVersion(env, dataset, judged);
    } else {
      assert ToSet(env.spec.judgeProfiles) == {};
    }
  }

  /** The cost of every row, at every moment, is its answer's cost plus its verdicts' costs. */
  lemma CostsAreConserved(env: Env, world: World, work: Work)
    requires ValidEnv(env) && Reachable(env, world) && work in world.db.rows
    ensures world.db.rows[work].tokenCost
         == AnswerCost(world.db.rows[work].answer) + CostOf(world.db.rows[work].judgeRecords)
    ensures DistinctProfiles(world.db.rows[work].judgeRecords)
  {
    ReachableIsSound(env, world);
    assert RowConsistent(world.db.rows[work]);
  }

  /** Every row was searched under the run's configuration and the one index pinned for its variant. */
  lemma RowsShareOneIndex(env: Env, world: World, work: Work)
    requires ValidEnv(env) && Reachable(env, world) && work in world.db.rows
    ensures work in world.origin
    ensures MadeUnderPin(env, world.db, work.variant, world.origin[work])
    ensures MadeFrom(world.db.rows[work], world.origin[work])
  {
    ReachableIsSound(env, world);
  }

  /** The close-out's count and fingerprint checks never reject a run that was not cancelled. */
  lemma CloseOutNeverRejects(env: Env, world: World, r: RunnerId)
    requires ValidEnv(env) && Reachable(env, world) && !world.db.state.Cancelled?
    requires world.At(r).InRetrieval? && world.At(r).todo == []
    ensures Retrieved(env, world.db, world.At(r)).Closing?
  {
    ReachableIsSound(env, world);
    LoopEndCovers(env, world.db, world.At(r));
  }

  /**
   * An error inside the run ends it: once the runner has recorded the failure, the run is failed or had ended before.
   */
  lemma ErrorsEndTheRun(env: Env, world: World, r: RunnerId)
    requires world.At(r).Raised?
    ensures var once := Apply(env, world, Step(r, Proceed));
            var twice := Apply(env, once, Step(r, Proceed));
            && (world.db.state.Terminal() ==> once.db == world.db && once.At(r).Idle?)
            && (!world.db.state.Terminal() ==> twice.db == world.db.(state := Failed) && twice.At(r).Idle?)
  {
    var once := Apply(env, world, Step(r, Proceed));
    if !world.db.state.Terminal() {
      assert once.db == world.db && once.At(r).MarkingFailed?;
      assert Apply(env, once, Step(r, Proceed)).db == MarkFailed(world.db);
    }
  }

  // ---- Lookups that cannot fail on an unchanging dataset ----

  lemma AnswerWorkIsStored(env: Env, db: Db, dataset: Queries, queries: Queries, work: Work)
    requires ValidEnv(env) && env.versions == {dataset} && Selectable(env, queries) && RetrievalDone(env, db)
    requires work in AnswerWork(env, queries)
    ensures work in db.rows
  {
    var covering :| Selectable(env, covering) && Covers(env, db, covering);
    OneVersion(env, dataset, covering);
    OneVersion(env, dataset, queries);
    var generation := GenerationQueries(env, queries).value;
    GenerationQueriesWereRetrieved(dataset, env.spec.sampleSize, env.spec.generationSampleSize, env.spec.seed,
                                   env.digest);
    WorkListMembers(generation, env.spec.AnsweredVariants(), work);
    var q :| q in generation && q.externalId == work.query;
    AnsweredVariantsAreVariants(env.spec, work.variant);
    WorkSetMeaning(queries, env.spec.variants, work);
  }

  lemma AnsweredVariantsAreVariants(spec: EvalRunSpec, variant: Variant)
    requires spec.Valid() && variant in spec.AnsweredVariants()
    ensures variant in spec.variants
  {}

  /** A snapshot of the results that holds every row an answer is asked for. */
  predicate Complete(env: Env, queries: Queries, persisted: map<Work, ResultRow>) {
    forall w <- AnswerWork(env, queries) :: w in persisted
  }

  predicate CompletelyAnswered(env: Env, queries: Queries, persisted: map<Work, ResultRow>) {
    forall w <- AnswerWork(env, queries) :: HasAnswer(persisted, w)
  }

  /** The snapshots a runner holds in the generation and judge stages have no gaps. */
  predicate NoGaps(env: Env, l: Local) {
    && (l.InGeneration? || l.Asking? || l.Drafted? ==> Complete(env, l.queries, l.persisted))
    && (l.InJudging? || l.Judged? ==> CompletelyAnswered(env, l.queries, l.persisted))
  }

  lemma SnapshotIsComplete(env: Env, db: Db, dataset: Queries, queries: Queries)
    requires ValidEnv(env) && env.versions == {dataset} && Selectable(env, queries) && RetrievalDone(env, db)
    ensures Complete(env, queries, db.rows)
  {
    forall w | w in AnswerWork(env, queries) ensures w in db.rows {
      AnswerWorkIsStored(env, db, dataset, queries, w);
    }
  }

  lemma SnapshotIsAnswered(env: Env, db: Db, dataset: Queries, queries: Queries)
    requires env.versions == {dataset} && Selectable(env, queries) && GenerationDone(env, db)
    ensures CompletelyAnswered(env, queries, db.rows)
  {
    var answered :| Selectable(env, answered) && AllAnswered(env, db, answered);
    OneVersion(env, dataset, answered);
    OneVersion(env, dataset, queries);
  }

  predicate HoldsSnapshot(l: Local) {
    l.InGeneration? || l.Asking? || l.Drafted? || l.InJudging? || l.Judged?
  }

  /** A step that is not a fresh read of the results keeps the snapshot the runner had, or drops it. */
  predicate SameSnapshot(l: Local, next: Local) {
    HoldsSnapshot(next) ==>
      && HoldsSnapshot(l) && next.queries == l.queries && next.persisted == l.persisted
      && (next.InJudging? || next.Judged? <==> l.InJudging? || l.Judged?)
  }

  lemma EarlyStepsHoldNone(env: Env, db: Db, l: Local)
    requires l.Idle? || l.Raised? || l.MarkingFailed? || l.Fetched? || l.Prepared? || l.Planned?
    ensures !HoldsSnapshot(Continue(env, db, l).1)
  {}

  lemma RetrievalStepsHoldNone(env: Env, db: Db, l: Local)
    requires l.Progressed? || l.Entering? || l.InRetrieval? || l.Found? || l.Stamped? || l.Closing?
    ensures !HoldsSnapshot(Continue(env, db, l).1)
  {}

  lemma GenerationStepsKeepSnapshot(env: Env, db: Db, l: Local)
    requires l.InGeneration? || l.Asking? || l.Drafted?
    ensures SameSnapshot(l, Continue(env, db, l).1)
  {}

  lemma JudgeStepsKeepSnapshot(env: Env, db: Db, l: Local)
    requires l.InJudging? || l.Judged?
    ensures SameSnapshot(l, Continue(env, db, l).1)
  {}

  lemma OutsideStepsKeepSnapshot(env: Env, db: Db, l: Local, action: Action)
    requires !action.Proceed?
    ensures SameSnapshot(l, Next(env, db, l, action).1)
  {}

  lemma OpenedSnapshot(env: Env, db: Db, state: RunState, queries: Queries)
    ensures var next := Open(env, db, state, queries).1;
            && (HoldsSnapshot(next) ==> next.queries == queries && next.persisted == db.rows)
            && (next.InGeneration? || next.Asking? || next.Drafted? ==> state.Generating?)
            && (next.InJudging? || next.Judged? ==> state.Judging?)
  {}

  lemma OpenLeavesNoGaps(env: Env, db: Db, dataset: Queries, state: RunState, queries: Queries)
    requires ValidEnv(env) && env.versions == {dataset} && Selectable(env, queries) && Vouched(env, db, state)
    ensures NoGaps(env, Open(env, db, state, queries).1)
  {
    OpenedSnapshot(env, db, state, queries);
    if state.Generating? {
      SnapshotIsComplete(env, db, dataset, queries);
    } else if state.Judging? {
      SnapshotIsAnswered(env, db, dataset, queries);
    }
  }

  lemma StepLeavesNoGaps(env: Env, db: Db, dataset: Queries, l: Local, action: Action)
    requires ValidEnv(env) && env.versions == {dataset} && NoGaps(env, l)
    requires l.Opening? ==> Selectable(env, l.queries) && Vouched(env, db, l.state)
    ensures NoGaps(env, Next(env, db, l, action).1)
  {
    if !action.Proceed? {
      OutsideStepsKeepSnapshot(env, db, l, action);
    } else if l.Opening? {
      OpenLeavesNoGaps(env, db, dataset, l.state, l.queries);
    } else if l.InGeneration? || l.Asking? || l.Drafted? {
      GenerationStepsKeepSnapshot(env, db, l);
    } else if l.InJudging? || l.Judged? {
      JudgeStepsKeepSnapshot(env, db, l);
    } else if l.Progressed? || l.Entering? || l.InRetrieval? || l.Found? || l.Stamped? || l.Closing? {
      RetrievalStepsHoldNone(env, db, l);
    } else {
      EarlyStepsHoldNone(env, db, l);
    }
  }

  lemma OpeningFacts(env: Env, db: Db, l: Local)
    requires LocalInvariant(env, db, l) && l.Opening?
    ensures Selectable(env, l.queries) && Vouched(env, db, l.state)
  {}

  lemma {:induction false} HistoriesLeaveNoGaps(env: Env, events: seq<Event>, dataset: Queries, r: RunnerId)
    requires ValidEnv(env) && Possible(env, events) && env.versions == {dataset}
    ensures NoGaps(env, Execute(env, events).At(r))
  {
    if events != [] {
      var last := |events| - 1;
      HistoriesLeaveNoGaps(env, events[..last], dataset, r);
      EveryHistoryIsSound(env, events[..last]);
      EventLeavesNoGaps(env, Execute(env, events[..last]), dataset, r, events[last]);
    }
  }

  lemma EventLeavesNoGaps(env: Env, world: World, dataset: Queries, r: RunnerId, event: Event)
    requires ValidEnv(env) && Sound(env, world) && env.versions == {dataset} && NoGaps(env, world.At(r))
    ensures NoGaps(env, Apply(env, world, event).At(r))
  {
    if event.Step? && event.runner == r {
      var l := world.At(r);
      if l.Opening? { OpeningFacts(env, world.db, l); }
      StepLeavesNoGaps(env, world.db, dataset, l, event.action);
    } else {
      assert Apply(env, world, event).At(r) == world.At(r);
    }
  }

  lemma ReachableHasNoGaps(env: Env, world: World, dataset: Queries, r: RunnerId)
    requires ValidEnv(env) && Reachable(env, world) && env.versions == {dataset}
    ensures NoGaps(env, world.At(r))
  {
    var events :| Possible(env, events) && Execute(env, events) == world;
    HistoriesLeaveNoGaps(env, events, dataset, r);
  }

  /** The generation stage finds every row it looks up. */
  lemma GenerationLookupsSucceed(env: Env, world: World, dataset: Queries, r: RunnerId)
    requires ValidEnv(env) && Reachable(env, world) && env.versions == {dataset}
    requires world.At(r).InGeneration? && world.At(r).work != []
    ensures world.At(r).work[0] in world.At(r).persisted
  {
    ReachableHasNoGaps(env, world, dataset, r);
    ReachableIsSound(env, world);
    HeadIsListed(env, world.db, world.At(r));
  }

  /** The judge stage finds every row answered, so its missing-answer error is never raised. */
  lemma JudgeLookupsSucceed(env: Env, world: World, dataset: Queries, r: RunnerId)
    requires ValidEnv(env) && Reachable(env, world) && env.versions == {dataset}
    requires world.At(r).InJudging? && world.At(r).work != []
    ensures HasAnswer(world.At(r).persisted, world.At(r).work[0])
  {
    ReachableHasNoGaps(env, world, dataset, r);
    ReachableIsSound(env, world);
    HeadIsListed(env, world.db, world.At(r));
  }

  lemma HeadIsListed(env: Env, db: Db, l: Local)
    requires LocalInvariant(env, db, l) && (l.InGeneration? || l.InJudging?) && l.work != []
    ensures l.work[0] in AnswerWork(env, l.queries)
  {
    SuffixMember(l.work, AnswerWork(env, l.queries), l.work[0]);
  }
}
