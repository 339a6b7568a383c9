/** What every crash, restart, cancellation and interleaving of runners preserves. */
module RunnerSafety {
  import opened Prelude
  import opened GenerationContract
  import opened EvaluationContract
  import opened EvaluationStore
  import opened EvaluationPlan
  import opened Sampling
  import opened EvaluationRunner

  // ---- What is settled once a stage is left behind ----

  /** `queries` is a selection some runner can work on. */
  ghost predicate Selectable(env: Env, queries: Queries) {
    exists d :: d in env.versions && Select(env, d) == Ok(queries) && queries != []
  }

  /** Exactly the work of `queries` is stored, it fills the configured total, and every variant is pinned. */
  predicate Covers(env: Env, db: Db, queries: Queries) {
    && db.rows.Keys == WorkSet(queries, env.spec.variants)
    && |db.rows| == db.totalQueries == TotalWork(env, queries)
    && db.indexFingerprints.Keys == ToSet(env.spec.variants)
  }

  predicate HasAnswer(rows: map<Work, ResultRow>, work: Work) {
    work in rows && rows[work].answer.Some?
  }

  /** An answer is stored for every query and variant that answers were asked for. */
  predicate AllAnswered(env: Env, db: Db, queries: Queries) {
    GenerationQueries(env, queries).Ok? && forall w <- AnswerWork(env, queries) :: HasAnswer(db.rows, w)
  }

  /** A row is settled when it has its answer and, if the answer can be judged, every profile's verdict. */
  predicate Settled(env: Env, rows: map<Work, ResultRow>, work: Work) {
    HasAnswer(rows, work) && (Judgeable(rows[work]) ==> MissingProfiles(env.spec, rows[work]) == {})
  }

  predicate AllJudged(env: Env, db: Db, queries: Queries) {
    GenerationQueries(env, queries).Ok? && forall w <- AnswerWork(env, queries) :: Settled(env, db.rows, w)
  }

  ghost predicate RetrievalDone(env: Env, db: Db) {
    exists queries :: Selectable(env, queries) && Covers(env, db, queries)
  }

  ghost predicate GenerationDone(env: Env, db: Db) {
    exists queries :: Selectable(env, queries) && AllAnswered(env, db, queries)
  }

  ghost predicate JudgingDone(env: Env, db: Db) {
    exists queries :: Selectable(env, queries) && AllJudged(env, db, queries)
  }

  predicate PastRetrieval(state: RunState) {
    state in {RunState.Generating, RunState.Judging, Scoring, Completed}
  }

  predicate PastGeneration(state: RunState) {
    state in {RunState.Judging, Scoring, Completed}
  }

  predicate PastJudging(state: RunState) {
    state in {Scoring, Completed}
  }

  /** All that a run's state vouches for. */
  ghost predicate Vouched(env: Env, db: Db, state: RunState) {
    && (state in {RunState.Generating, RunState.Judging} ==> env.spec.generationEnabled)
    && (PastRetrieval(state) ==> RetrievalDone(env, db))
    && (PastGeneration(state) && env.spec.generationEnabled ==> GenerationDone(env, db))
    && (PastJudging(state) && env.spec.judgeProfiles != [] ==> JudgingDone(env, db))
  }

  // ---- Where a runner may stand ----

  predicate FreshEnough(db: Db, run: RunView) {
    run.completed <= db.completedQueries && PinsKept(run.pinned, db.indexFingerprints)
  }

  ghost predicate Working(env: Env, db: Db, queries: Queries, pinned: map<Variant, Fingerprint>) {
    && Selectable(env, queries)
    && PinsKept(pinned, db.indexFingerprints)
    && db.totalQueries == TotalWork(env, queries)
  }

  /** What the loop has passed is stored; what it has not passed is still ahead. */
  predicate AllStoredBut(env: Env, db: Db, queries: Queries, todo: seq<Item>) {
    && IsSuffix(todo, Program(queries, env.spec.variants))
    && forall w <- WorkSet(queries, env.spec.variants) :: w in db.rows || Search(w) in todo
  }

  ghost predicate Looping(env: Env, db: Db, l: Local)
    requires l.InRetrieval? || l.Found? || l.Stamped?
  {
    Working(env, db, l.queries, l.pinned) && l.done <= db.rows.Keys && AllStoredBut(env, db, l.queries, l.todo)
  }

  predicate AtSearch(env: Env, l: Local)
    requires l.Found? || l.Stamped?
  {
    && l.todo != [] && l.todo[0].Search? && l.todo[0].work !in l.done
    && l.todo[0].work.variant in env.variantHashes
    && l.response.variantHash == env.variantHashes[l.todo[0].work.variant]
  }

  ghost predicate Reading(env: Env, db: Db, queries: Queries, persisted: map<Work, ResultRow>) {
    Selectable(env, queries) && RetrievalDone(env, db) && RowsKept(persisted, db.rows)
  }

  predicate AllAnsweredBut(env: Env, db: Db, queries: Queries, work: seq<Work>) {
    && GenerationQueries(env, queries).Ok?
    && IsSuffix(work, AnswerWork(env, queries))
    && forall w <- AnswerWork(env, queries) :: w in work || HasAnswer(db.rows, w)
  }

  predicate AllSettledBut(env: Env, db: Db, queries: Queries, work: seq<Work>) {
    && GenerationQueries(env, queries).Ok?
    && IsSuffix(work, AnswerWork(env, queries))
    && forall w <- AnswerWork(env, queries) :: w in work || Settled(env, db.rows, w)
  }

  ghost predicate AnsweringFrom(env: Env, db: Db, queries: Queries, persisted: map<Work, ResultRow>, work: seq<Work>) {
    Reading(env, db, queries, persisted) && AllAnsweredBut(env, db, queries, work)
  }

  ghost predicate JudgingFrom(env: Env, db: Db, queries: Queries, persisted: map<Work, ResultRow>, work: seq<Work>) {
    && Reading(env, db, queries, persisted) && AllSettledBut(env, db, queries, work)
    && (env.spec.generationEnabled ==> GenerationDone(env, db))
  }

  predicate AtWork(work: seq<Work>, persisted: map<Work, ResultRow>) {
    work != [] && work[0] in persisted
  }

  ghost predicate LocalInvariant(env: Env, db: Db, l: Local) {
    match l
    case Idle => true
    case Raised => true
    case MarkingFailed => true
    case Fetched(run) => FreshEnough(db, run) && Vouched(env, db, run.state)
    case Prepared(run) => FreshEnough(db, run) && Vouched(env, db, run.state)
    case Planned(run, queries) => FreshEnough(db, run) && Vouched(env, db, run.state) && Selectable(env, queries)
    case Progressed(queries, pinned) => Working(env, db, queries, pinned)
    case Entering(queries, pinned) => Working(env, db, queries, pinned)
    case InRetrieval(_, _, _, _) => Looping(env, db, l)
    case Found(_, _, _, _, _) => Looping(env, db, l) && AtSearch(env, l)
    case Stamped(_, pinned, _, todo, response) =>
      && Looping(env, db, l) && AtSearch(env, l)
      && todo[0].work.variant in pinned && pinned[todo[0].work.variant] == response.indexFingerprint
    case Closing(queries) => Selectable(env, queries) && Covers(env, db, queries)
    case Opening(state, queries) => Selectable(env, queries) && Vouched(env, db, state)
    case InGeneration(queries, persisted, work) => AnsweringFrom(env, db, queries, persisted, work)
    case Asking(queries, persisted, work) =>
      AnsweringFrom(env, db, queries, persisted, work) && AtWork(work, persisted)
    case Drafted(queries, persisted, work, _, _, _) =>
      AnsweringFrom(env, db, queries, persisted, work) && AtWork(work, persisted)
    case InJudging(queries, persisted, work) => JudgingFrom(env, db, queries, persisted, work)
    case Judged(queries, persisted, work, verdicts) =>
      && JudgingFrom(env, db, queries, persisted, work)
      && AtWork(work, persisted) && Judgeable(persisted[work[0]])
      && Profiles(verdicts) == MissingProfiles(env.spec, persisted[work[0]])
  }

  ghost predicate DbInvariant(env: Env, db: Db) {
    StoreInvariant(env.spec, db) && Vouched(env, db, db.state)
  }

  // ---- Other runners' transactions cannot invalidate where a runner stands ----

  lemma SelectableFacts(env: Env, queries: Queries)
    requires ValidEnv(env) && Selectable(env, queries)
    ensures queries != [] && DistinctIds(queries) && Distinct(env.spec.variants) && env.spec.variants != []
    ensures |WorkSet(queries, env.spec.variants)| == TotalWork(env, queries) > 0
  {
    var d :| d in env.versions && Select(env, d) == Ok(queries);
    SelectionMeaning(d, env.spec.sampleSize, env.spec.seed, env.digest);
    assert Distinct(queries) && UniqueExternalIds(queries);
    DistinctIdsOf(queries);
    WorkSetSize(queries, env.spec.variants);
    PositiveProduct(|queries|, |env.spec.variants|);
  }

  lemma PositiveProduct(a: nat, b: nat)
    requires a > 0 && b > 0
    ensures a * b > 0
  {}

  lemma AnswersKept(before: Db, after: Db, work: Work)
    requires RowsKept(before.rows, after.rows) && HasAnswer(before.rows, work)
    ensures HasAnswer(after.rows, work) && after.rows[work].answer == before.rows[work].answer
  {}

  lemma ProfilesGrow(before: seq<JudgeRecord>, after: seq<JudgeRecord>)
    requires before <= after
    ensures Profiles(before) <= Profiles(after)
  {
    assert forall r <- before :: r in after;
  }

  lemma SettledKept(env: Env, before: Db, after: Db, work: Work)
    requires RowsKept(before.rows, after.rows) && Settled(env, before.rows, work)
    ensures Settled(env, after.rows, work)
  {
    AnswersKept(before, after, work);
    ProfilesGrow(before.rows[work].judgeRecords, after.rows[work].judgeRecords);
  }

  lemma CoversKept(env: Env, before: Db, after: Db, queries: Queries)
    requires ValidEnv(env) && Selectable(env, queries)
    requires StoreInvariant(env.spec, before) && StoreInvariant(env.spec, after) && Advances(before, after)
    requires Covers(env, before, queries)
    ensures Covers(env, after, queries)
  {
    SelectableFacts(env, queries);
    SameSizeSuperset(before.rows.Keys, after.rows.Keys);
    assert forall v <- env.spec.variants :: v in before.indexFingerprints;
    assert after.indexFingerprints.Keys == ToSet(env.spec.variants);
  }

  lemma SameSizeSuperset<T>(a: set<T>, b: set<T>)
    requires a <= b && |b| <= |a|
    ensures a == b
  {
    assert |b - a| == |b| - |a|;
  }

  lemma AllAnsweredKept(env: Env, before: Db, after: Db, queries: Queries)
    requires RowsKept(before.rows, after.rows) && AllAnswered(env, before, queries)
    ensures AllAnswered(env, after, queries)
  {
    forall w | w in AnswerWork(env, queries) ensures HasAnswer(after.rows, w) {
      AnswersKept(before, after, w);
    }
  }

  lemma AllJudgedKept(env: Env, before: Db, after: Db, queries: Queries)
    requires RowsKept(before.rows, after.rows) && AllJudged(env, before, queries)
    ensures AllJudged(env, after, queries)
  {
    forall w | w in AnswerWork(env, queries) ensures Settled(env, after.rows, w) {
      SettledKept(env, before, after, w);
    }
  }

  lemma RetrievalDoneKept(env: Env, before: Db, after: Db)
    requires ValidEnv(env) && StoreInvariant(env.spec, before) && StoreInvariant(env.spec, after)
    requires Advances(before, after) && RetrievalDone(env, before)
    ensures RetrievalDone(env, after)
  {
    var queries :| Selectable(env, queries) && Covers(env, before, queries);
    CoversKept(env, before, after, queries);
  }

  lemma GenerationDoneKept(env: Env, before: Db, after: Db)
    requires RowsKept(before.rows, after.rows) && GenerationDone(env, before)
    ensures GenerationDone(env, after)
  {
    var queries :| Selectable(env, queries) && AllAnswered(env, before, queries);
    AllAnsweredKept(env, before, after, queries);
  }

  lemma JudgingDoneKept(env: Env, before: Db, after: Db)
    requires RowsKept(before.rows, after.rows) && JudgingDone(env, before)
    ensures JudgingDone(env, after)
  {
    var queries :| Selectable(env, queries) && AllJudged(env, before, queries);
    AllJudgedKept(env, before, after, queries);
  }

  lemma VouchedKept(env: Env, before: Db, after: Db, state: RunState)
    requires ValidEnv(env) && StoreInvariant(env.spec, before) && StoreInvariant(env.spec, after)
    requires Advances(before, after) && Vouched(env, before, state)
    ensures Vouched(env, after, state)
  {
    if PastRetrieval(state) { RetrievalDoneKept(env, before, after); }
    if PastGeneration(state) && env.spec.generationEnabled { GenerationDoneKept(env, before, after); }
    if PastJudging(state) && env.spec.judgeProfiles != [] { JudgingDoneKept(env, before, after); }
  }

  lemma WorkingKept(env: Env, before: Db, after: Db, queries: Queries, pinned: map<Variant, Fingerprint>)
    requires ValidEnv(env) && Advances(before, after) && Working(env, before, queries, pinned)
    ensures Working(env, after, queries, pinned)
  {
    SelectableFacts(env, queries);
  }

  lemma StoredKept(env: Env, before: Db, after: Db, queries: Queries, todo: seq<Item>)
    requires RowsKept(before.rows, after.rows) && AllStoredBut(env, before, queries, todo)
    ensures AllStoredBut(env, after, queries, todo)
  {}

  lemma LoopingKept(env: Env, before: Db, after: Db, l: Local)
    requires ValidEnv(env) && Advances(before, after)
    requires l.InRetrieval? || l.Found? || l.Stamped?
    requires Looping(env, before, l)
    ensures Looping(env, after, l)
  {
    WorkingKept(env, before, after, l.queries, l.pinned);
    StoredKept(env, before, after, l.queries, l.todo);
    assert forall w <- l.done :: w in before.rows;
  }

  lemma ReadingKept(env: Env, before: Db, after: Db, queries: Queries, persisted: map<Work, ResultRow>)
    requires ValidEnv(env) && StoreInvariant(env.spec, before) && StoreInvariant(env.spec, after)
    requires Advances(before, after) && Reading(env, before, queries, persisted)
    ensures Reading(env, after, queries, persisted)
  {
    RetrievalDoneKept(env, before, after);
    RowsKeptTransitive(persisted, before.rows, after.rows);
  }

  lemma AllAnsweredButKept(env: Env, before: Db, after: Db, queries: Queries, work: seq<Work>)
    requires RowsKept(before.rows, after.rows) && AllAnsweredBut(env, before, queries, work)
    ensures AllAnsweredBut(env, after, queries, work)
  {
    forall w | w in AnswerWork(env, queries) ensures w in work || HasAnswer(after.rows, w) {
      if w !in work { AnswersKept(before, after, w); }
    }
  }

  lemma AllSettledButKept(env: Env, before: Db, after: Db, queries: Queries, work: seq<Work>)
    requires RowsKept(before.rows, after.rows) && AllSettledBut(env, before, queries, work)
    ensures AllSettledBut(env, after, queries, work)
  {
    forall w | w in AnswerWork(env, queries) ensures w in work || Settled(env, after.rows, w) {
      if w !in work { SettledKept(env, before, after, w); }
    }
  }

  lemma FreshKept(before: Db, after: Db, run: RunView)
    requires Advances(before, after) && FreshEnough(before, run)
    ensures FreshEnough(after, run)
  {}

  lemma AnsweringKept(env: Env, before: Db, after: Db, queries: Queries, persisted: map<Work, ResultRow>,
                      work: seq<Work>)
    requires ValidEnv(env) && StoreInvariant(env.spec, before) && StoreInvariant(env.spec, after)
    requires Advances(before, after) && AnsweringFrom(env, before, queries, persisted, work)
    ensures AnsweringFrom(env, after, queries, persisted, work)
  {
    ReadingKept(env, before, after, queries, persisted);
    AllAnsweredButKept(env, before, after, queries, work);
  }

  lemma JudgingKept(env: Env, before: Db, after: Db, queries: Queries, persisted: map<Work, ResultRow>,
                    work: seq<Work>)
    requires ValidEnv(env) && StoreInvariant(env.spec, before) && StoreInvariant(env.spec, after)
    requires Advances(before, after) && JudgingFrom(env, before, queries, persisted, work)
    ensures JudgingFrom(env, after, queries, persisted, work)
  {
    ReadingKept(env, before, after, queries, persisted);
    AllSettledButKept(env, before, after, queries, work);
    if env.spec.generationEnabled { GenerationDoneKept(env, before, after); }
  }

  lemma RetrievalStandingKept(env: Env, before: Db, after: Db, l: Local)
    requires ValidEnv(env) && Advances(before, after) && LocalInvariant(env, before, l)
    requires l.Progressed? || l.Entering? || l.InRetrieval? || l.Found? || l.Stamped?
    ensures LocalInvariant(env, after, l)
  {
    if l.Progressed? || l.Entering? {
      WorkingKept(env, before, after, l.queries, l.pinned);
    } else {
      LoopingKept(env, before, after, l);
    }
  }

  lemma ViewStandingKept(env: Env, before: Db, after: Db, l: Local)
    requires ValidEnv(env) && StoreInvariant(env.spec, before) && StoreInvariant(env.spec, after)
    requires Advances(before, after) && LocalInvariant(env, before, l)
    requires l.Fetched? || l.Prepared? || l.Planned?
    ensures LocalInvariant(env, after, l)
  {
    FreshKept(before, after, l.run);
    VouchedKept(env, before, after, l.run.state);
  }

  /** The rely condition: any advance of the tables leaves every runner's standing intact. */
  lemma LocalInvariantKept(env: Env, before: Db, after: Db, l: Local)
    requires ValidEnv(env) && StoreInvariant(env.spec, before) && StoreInvariant(env.spec, after)
    requires Advances(before, after) && LocalInvariant(env, before, l)
    ensures LocalInvariant(env, after, l)
  {
    if l.Fetched? || l.Prepared? || l.Planned? {
      ViewStandingKept(env, before, after, l);
    } else if l.Progressed? || l.Entering? || l.InRetrieval? || l.Found? || l.Stamped? {
      RetrievalStandingKept(env, before, after, l);
    } else if l.InGeneration? || l.Asking? || l.Drafted? {
      AnsweringKept(env, before, after, l.queries, l.persisted, l.work);
    } else if l.InJudging? || l.Judged? {
      JudgingKept(env, before, after, l.queries, l.persisted, l.work);
    } else if l.Closing? {
      CoversKept(env, before, after, l.queries);
    } else if l.Opening? {
      VouchedKept(env, before, after, l.state);
    }
  }

  // ---- Every transaction keeps the invariant ----

  ghost predicate DbKept(env: Env, before: Db, after: Db) {
    DbInvariant(env, after) && Advances(before, after)
  }

  ghost predicate Keeps(env: Env, before: Db, after: Db, l: Local) {
    DbKept(env, before, after) && LocalInvariant(env, after, l)
  }

  lemma Unchanged(env: Env, db: Db, l: Local)
    requires DbInvariant(env, db) && LocalInvariant(env, db, l)
    ensures Keeps(env, db, db, l)
  {
    AdvancesReflexive(db);
  }

  lemma Stopped(env: Env, db: Db)
    requires DbInvariant(env, db)
    ensures Keeps(env, db, db, Idle) && Keeps(env, db, db, Raised) && Keeps(env, db, db, MarkingFailed)
  {
    AdvancesReflexive(db);
  }

  /** A state change is safe once everything the new state vouches for holds. */
  lemma StateStep(env: Env, db: Db, target: RunState)
    requires ValidEnv(env) && DbInvariant(env, db) && AfterState(db, target).Ok? && Vouched(env, db, target)
    ensures DbKept(env, db, AfterState(db, target).value)
  {
    StateAdvances(env.spec, db, target);
    VouchedKept(env, db, AfterState(db, target).value, target);
  }

  lemma FreshView(db: Db)
    ensures FreshEnough(db, View(db))
  {}

  lemma BeginKeeps(env: Env, db: Db)
    requires DbInvariant(env, db)
    ensures Keeps(env, db, db, Begin(db))
  {
    Stopped(env, db);
    FreshView(db);
    if Begin(db) != Idle { Unchanged(env, db, Fetched(View(db))); }
  }

  lemma PreparingKeeps(env: Env, db: Db)
    requires ValidEnv(env) && DbInvariant(env, db) && AfterState(db, RunState.Preparing).Ok?
    ensures var after := AfterState(db, RunState.Preparing).value; Keeps(env, db, after, Prepared(View(after)))
  {
    var after := AfterState(db, RunState.Preparing).value;
    StateStep(env, db, RunState.Preparing);
    FreshView(after);
  }

  lemma PrepareKeeps(env: Env, db: Db, run: RunView)
    requires ValidEnv(env) && DbInvariant(env, db) && LocalInvariant(env, db, Fetched(run))
    ensures Keeps(env, db, Prepare(db, run).0, Prepare(db, run).1)
  {
    Stopped(env, db);
    if !run.state.Queued? {
      Unchanged(env, db, Prepared(run));
    } else if AfterState(db, RunState.Preparing).Ok? {
      PreparingKeeps(env, db);
    }
  }

  lemma PlanKeeps(env: Env, db: Db, run: RunView, dataset: Queries, currentHashes: map<Variant, Hash>)
    requires DbInvariant(env, db) && LocalInvariant(env, db, Prepared(run)) && dataset in env.versions
    ensures Keeps(env, db, db, Plan(env, run, dataset, currentHashes))
  {
    Stopped(env, db);
    if Plan(env, run, dataset, currentHashes) != Raised {
      assert Selectable(env, Select(env, dataset).value);
      Unchanged(env, db, Planned(run, Select(env, dataset).value));
    }
  }

  lemma ProgressKeeps(env: Env, db: Db, run: RunView, queries: Queries)
    requires ValidEnv(env) && DbInvariant(env, db) && FreshEnough(db, run) && Selectable(env, queries)
    requires AfterProgress(db, run.completed, TotalWork(env, queries)).Ok?
    ensures var after := AfterProgress(db, run.completed, TotalWork(env, queries)).value;
            DbKept(env, db, after) && Working(env, after, queries, run.pinned)
  {
    var after := AfterProgress(db, run.completed, TotalWork(env, queries)).value;
    ProgressAdvances(env.spec, db, run.completed, TotalWork(env, queries));
    VouchedKept(env, db, after, db.state);
  }

  lemma DispatchKeeps(env: Env, db: Db, state: RunState, queries: Queries, pinned: map<Variant, Fingerprint>)
    requires Working(env, db, queries, pinned) && Vouched(env, db, state)
    ensures LocalInvariant(env, db, Dispatch(state, queries, pinned))
    ensures LocalInvariant(env, db, Progressed(queries, pinned))
  {
    assert LocalInvariant(env, db, Entering(queries, pinned));
    assert LocalInvariant(env, db, Opening(state, queries));
  }

  lemma InitializeKeeps(env: Env, db: Db, run: RunView, queries: Queries)
    requires ValidEnv(env) && DbInvariant(env, db) && LocalInvariant(env, db, Planned(run, queries))
    ensures Keeps(env, db, Initialize(env, db, run, queries).0, Initialize(env, db, run, queries).1)
  {
    var progress := AfterProgress(db, run.completed, TotalWork(env, queries));
    if run.state in {RunState.Preparing, RunState.Retrieving} {
      if progress.Ok? {
        ProgressKeeps(env, db, run, queries);
        DispatchKeeps(env, progress.value, progress.value.state, queries, run.pinned);
      } else {
        Stopped(env, db);
      }
    } else {
      Unchanged(env, db, Opening(run.state, queries));
    }
  }

  lemma EnterRetrievalKeeps(env: Env, db: Db, queries: Queries, pinned: map<Variant, Fingerprint>)
    requires ValidEnv(env) && DbInvariant(env, db) && Working(env, db, queries, pinned)
    requires AfterState(db, RunState.Retrieving).Ok?
    ensures Keeps(env, db, AfterState(db, RunState.Retrieving).value, Entering(queries, pinned))
  {
    StateStep(env, db, RunState.Retrieving);
    WorkingKept(env, db, AfterState(db, RunState.Retrieving).value, queries, pinned);
  }

  lemma WholeProgramCovers(env: Env, db: Db, queries: Queries)
    ensures AllStoredBut(env, db, queries, Program(queries, env.spec.variants))
  {
    forall w | w in WorkSet(queries, env.spec.variants) ensures Search(w) in Program(queries, env.spec.variants) {
      WorkSetMeaning(queries, env.spec.variants, w);
      ProgramMembers(queries, env.spec.variants, w);
    }
  }

  lemma SnapshotKeeps(env: Env, db: Db, queries: Queries, pinned: map<Variant, Fingerprint>)
    requires DbInvariant(env, db) && Working(env, db, queries, pinned)
    ensures Keeps(env, db, db, InRetrieval(queries, pinned, db.rows.Keys, Program(queries, env.spec.variants)))
  {
    WholeProgramCovers(env, db, queries);
    Unchanged(env, db, InRetrieval(queries, pinned, db.rows.Keys, Program(queries, env.spec.variants)));
  }

  lemma InTail<T>(s: seq<T>, x: T)
    requires x in s && x != s[0]
    ensures x in s[1..]
  {
    assert s == [s[0]] + s[1..];
  }

  /** Moving past an instruction is safe when it was not a search, or its work is stored. */
  lemma StepOver(env: Env, db: Db, queries: Queries, todo: seq<Item>)
    requires AllStoredBut(env, db, queries, todo) && todo != []
    requires todo[0].Search? ==> todo[0].work in db.rows
    ensures AllStoredBut(env, db, queries, todo[1..])
  {
    SuffixTail(todo, Program(queries, env.spec.variants));
    forall w | w in WorkSet(queries, env.spec.variants) && w !in db.rows ensures Search(w) in todo[1..] {
      InTail(todo, Search(w));
    }
  }

  lemma LoopEndCount(env: Env, db: Db, queries: Queries)
    requires ValidEnv(env) && StoreInvariant(env.spec, db) && Selectable(env, queries)
    requires db.totalQueries == TotalWork(env, queries) && AllStoredBut(env, db, queries, [])
    ensures db.rows.Keys == WorkSet(queries, env.spec.variants)
    ensures |db.rows| == db.totalQueries
  {
    SelectableFacts(env, queries);
    SameSizeSuperset(WorkSet(queries, env.spec.variants), db.rows.Keys);
  }

  lemma LoopEndPins(env: Env, db: Db, queries: Queries)
    requires PinsCover(env.spec, db) && queries != []
    requires db.rows.Keys == WorkSet(queries, env.spec.variants)
    ensures db.indexFingerprints.Keys == ToSet(env.spec.variants)
  {
    forall v | v in env.spec.variants ensures v in db.indexFingerprints {
      assert Work(queries[0].externalId, v) in db.rows;
    }
  }

  /** When the loop has run out, the count and the pins are exactly what the close-out demands. */
  lemma LoopEndCovers(env: Env, db: Db, l: Local)
    requires ValidEnv(env) && StoreInvariant(env.spec, db) && l.InRetrieval? && Looping(env, db, l) && l.todo == []
    ensures Covers(env, db, l.queries)
  {
    LoopEndCount(env, db, l.queries);
    LoopEndPins(env, db, l.queries);
  }

  lemma ClosingKeeps(env: Env, db: Db, l: Local)
    requires ValidEnv(env) && DbInvariant(env, db) && l.InRetrieval? && Looping(env, db, l) && l.todo == []
    ensures Keeps(env, db, db, Closing(l.queries))
  {
    LoopEndCovers(env, db, l);
    Unchanged(env, db, Closing(l.queries));
  }

  lemma SkipKeeps(env: Env, db: Db, l: Local)
    requires DbInvariant(env, db) && l.InRetrieval? && Looping(env, db, l) && l.todo != []
    requires l.todo[0].Search? ==> l.todo[0].work in db.rows
    ensures Keeps(env, db, db, InRetrieval(l.queries, l.pinned, l.done, l.todo[1..]))
  {
    StepOver(env, db, l.queries, l.todo);
    Unchanged(env, db, InRetrieval(l.queries, l.pinned, l.done, l.todo[1..]));
  }

  lemma RetrievedKeeps(env: Env, db: Db, l: Local)
    requires ValidEnv(env) && DbInvariant(env, db) && l.InRetrieval? && Looping(env, db, l)
    ensures Keeps(env, db, db, Retrieved(env, db, l))
  {
    Stopped(env, db);
    if l.todo == [] {
      ClosingKeeps(env, db, l);
    } else if l.todo[0].CheckCancelled? || l.todo[0].work in l.done {
      SkipKeeps(env, db, l);
    } else {
      Unchanged(env, db, l);
    }
  }

  lemma ReceiveKeeps(env: Env, db: Db, l: Local, response: Response)
    requires DbInvariant(env, db) && l.InRetrieval? && Looping(env, db, l)
    requires l.todo != [] && l.todo[0].Search? && l.todo[0].work !in l.done
    ensures Keeps(env, db, db, Receive(env, l, response))
  {
    Stopped(env, db);
    var next := Receive(env, l, response);
    if next.Found? {
      Unchanged(env, db, Found(l.queries, l.pinned, l.done, l.todo, response));
    } else if next.Stamped? {
      Unchanged(env, db, Stamped(l.queries, l.pinned, l.done, l.todo, response));
    }
  }

  lemma StampKeeps(env: Env, db: Db, l: Local)
    requires ValidEnv(env) && DbInvariant(env, db) && l.Found? && Looping(env, db, l) && AtSearch(env, l)
    ensures Keeps(env, db, Stamp(env, db, l).0, Stamp(env, db, l).1)
  {
    Stopped(env, db);
    if AfterPin(env.spec, db, l.todo[0].work.variant, l.response.indexFingerprint).Ok? { StampedKeeps(env, db, l); }
  }

  lemma StampedKeeps(env: Env, db: Db, l: Local)
    requires ValidEnv(env) && DbInvariant(env, db) && l.Found? && Looping(env, db, l) && AtSearch(env, l)
    requires AfterPin(env.spec, db, l.todo[0].work.variant, l.response.indexFingerprint).Ok?
    ensures var v := l.todo[0].work.variant;
            Keeps(env, db, AfterPin(env.spec, db, v, l.response.indexFingerprint).value,
                  Stamped(l.queries, l.pinned[v := l.response.indexFingerprint], l.done, l.todo, l.response))
  {
    var v, fingerprint := l.todo[0].work.variant, l.response.indexFingerprint;
    var after := AfterPin(env.spec, db, v, fingerprint).value;
    PinAdvances(env.spec, db, v, fingerprint);
    VouchedKept(env, db, after, db.state);
    LoopingKept(env, db, after, l);
  }

  lemma StoreKeeps(env: Env, db: Db, l: Local)
    requires ValidEnv(env) && DbInvariant(env, db) && LocalInvariant(env, db, l) && l.Stamped?
    ensures Keeps(env, db, Store(db, l).0, Store(db, l).1)
  {
    Stopped(env, db);
    if AfterResult(db, l.todo[0].work, NewRow(l.response.ranking, l.response.scores)).Ok? { StoredKeeps(env, db, l); }
  }

  lemma ResultKept(env: Env, db: Db, work: Work, row: ResultRow)
    requires ValidEnv(env) && DbInvariant(env, db) && work.variant in db.indexFingerprints && RowConsistent(row)
    requires AfterResult(db, work, row).Ok?
    ensures DbKept(env, db, AfterResult(db, work, row).value)
  {
    ResultAdvances(env.spec, db, work, row);
    VouchedKept(env, db, AfterResult(db, work, row).value, db.state);
  }

  lemma StoredKeeps(env: Env, db: Db, l: Local)
    requires ValidEnv(env) && DbInvariant(env, db) && LocalInvariant(env, db, l) && l.Stamped?
    requires AfterResult(db, l.todo[0].work, NewRow(l.response.ranking, l.response.scores)).Ok?
    ensures Keeps(env, db, AfterResult(db, l.todo[0].work, NewRow(l.response.ranking, l.response.scores)).value,
                  InRetrieval(l.queries, l.pinned, l.done, l.todo[1..]))
  {
    var work, row := l.todo[0].work, NewRow(l.response.ranking, l.response.scores);
    var after := AfterResult(db, work, row).value;
    NewRowConsistent(l.response.ranking, l.response.scores);
    ResultKept(env, db, work, row);
    LoopingKept(env, db, after, l);
    ResultStored(env, db, after, l, row);
  }

  lemma ResultStored(env: Env, db: Db, after: Db, l: Local, row: ResultRow)
    requires l.Stamped? && Looping(env, after, l) && AtSearch(env, l) && DbKept(env, db, after)
    requires AfterResult(db, l.todo[0].work, row) == Ok(after)
    ensures Keeps(env, db, after, InRetrieval(l.queries, l.pinned, l.done, l.todo[1..]))
  {
    ResultKeys(db, l.todo[0].work, row);
    StepOver(env, after, l.queries, l.todo);
  }

  lemma MoveKeeps(env: Env, db: Db, target: RunState, queries: Queries)
    requires ValidEnv(env) && DbInvariant(env, db) && Selectable(env, queries) && Vouched(env, db, target)
    ensures Keeps(env, db, MoveTo(db, target, queries).0, MoveTo(db, target, queries).1)
  {
    Stopped(env, db);
    if AfterState(db, target).Ok? { MovedKeeps(env, db, target, queries); }
  }

  lemma MovedKeeps(env: Env, db: Db, target: RunState, queries: Queries)
    requires ValidEnv(env) && DbInvariant(env, db) && Selectable(env, queries) && Vouched(env, db, target)
    requires AfterState(db, target).Ok?
    ensures Keeps(env, db, AfterState(db, target).value, Opening(target, queries))
  {
    StateStep(env, db, target);
    VouchedKept(env, db, AfterState(db, target).value, target);
  }

  lemma CloseKeeps(env: Env, db: Db, queries: Queries)
    requires ValidEnv(env) && DbInvariant(env, db) && Selectable(env, queries) && Covers(env, db, queries)
    ensures Keeps(env, db, MoveTo(db, AfterRetrieval(env.spec), queries).0,
                  MoveTo(db, AfterRetrieval(env.spec), queries).1)
  {
    assert RetrievalDone(env, db);
    MoveKeeps(env, db, AfterRetrieval(env.spec), queries);
  }

  lemma OpenGenerationKeeps(env: Env, db: Db, queries: Queries)
    requires DbInvariant(env, db) && Selectable(env, queries) && GenerationQueries(env, queries).Ok?
    requires RetrievalDone(env, db)
    ensures Keeps(env, db, db, InGeneration(queries, db.rows, AnswerWork(env, queries)))
  {
    RowsKeptReflexive(db.rows);
    assert AllAnsweredBut(env, db, queries, AnswerWork(env, queries));
    Unchanged(env, db, InGeneration(queries, db.rows, AnswerWork(env, queries)));
  }

  lemma OpenJudgingKeeps(env: Env, db: Db, queries: Queries)
    requires DbInvariant(env, db) && Selectable(env, queries) && GenerationQueries(env, queries).Ok?
    requires Vouched(env, db, RunState.Judging)
    ensures Keeps(env, db, db, InJudging(queries, db.rows, AnswerWork(env, queries)))
  {
    RowsKeptReflexive(db.rows);
    assert AllSettledBut(env, db, queries, AnswerWork(env, queries));
    Unchanged(env, db, InJudging(queries, db.rows, AnswerWork(env, queries)));
  }

  lemma CompleteKeeps(env: Env, db: Db)
    requires ValidEnv(env) && DbInvariant(env, db) && Vouched(env, db, Scoring) && AfterState(db, Completed).Ok?
    ensures Keeps(env, db, AfterState(db, Completed).value, Idle)
  {
    StateStep(env, db, Completed);
  }

  lemma OpenWorkKeeps(env: Env, db: Db, state: RunState, queries: Queries)
    requires DbInvariant(env, db) && Selectable(env, queries) && Vouched(env, db, state)
    requires GenerationQueries(env, queries).Ok? && state in {RunState.Generating, RunState.Judging}
    ensures Keeps(env, db, Open(env, db, state, queries).0, Open(env, db, state, queries).1)
  {
    if state == RunState.Generating {
      OpenGenerationKeeps(env, db, queries);
      assert Open(env, db, state, queries) == (db, InGeneration(queries, db.rows, AnswerWork(env, queries)));
    } else {
      OpenJudgingKeeps(env, db, queries);
      assert Open(env, db, state, queries) == (db, InJudging(queries, db.rows, AnswerWork(env, queries)));
    }
  }

  lemma OpenedScoring(env: Env, db: Db, queries: Queries)
    requires GenerationQueries(env, queries).Ok?
    ensures Open(env, db, Scoring, queries)
         == if AfterState(db, Completed).Ok? then (AfterState(db, Completed).value, Idle) else (db, Raised)
  {}

  lemma ScoringKeeps(env: Env, db: Db, result: (Db, Local))
    requires ValidEnv(env) && DbInvariant(env, db) && Vouched(env, db, Scoring)
    requires result == if AfterState(db, Completed).Ok? then (AfterState(db, Completed).value, Idle) else (db, Raised)
    ensures Keeps(env, db, result.0, result.1)
  {
    Stopped(env, db);
    if AfterState(db, Completed).Ok? { CompleteKeeps(env, db); }
  }

  lemma OpenStopKeeps(env: Env, db: Db, state: RunState, queries: Queries)
    requires DbInvariant(env, db)
    requires GenerationQueries(env, queries).Err? || state !in {RunState.Generating, RunState.Judging, Scoring}
    ensures Keeps(env, db, Open(env, db, state, queries).0, Open(env, db, state, queries).1)
  {
    Stopped(env, db);
    assert Open(env, db, state, queries) == (db, if GenerationQueries(env, queries).Err? then Raised else Idle);
  }

  lemma OpenKeeps(env: Env, db: Db, state: RunState, queries: Queries)
    requires ValidEnv(env) && DbInvariant(env, db) && Selectable(env, queries) && Vouched(env, db, state)
    ensures Keeps(env, db, Open(env, db, state, queries).0, Open(env, db, state, queries).1)
  {
    if GenerationQueries(env, queries).Err? || state !in {RunState.Generating, RunState.Judging, Scoring} {
      OpenStopKeeps(env, db, state, queries);
    } else if state == Scoring {
      OpenedScoring(env, db, queries);
      ScoringKeeps(env, db, Open(env, db, Scoring, queries));
    } else {
      OpenWorkKeeps(env, db, state, queries);
    }
  }

  lemma AnsweredStepOver(env: Env, db: Db, queries: Queries, work: seq<Work>)
    requires AllAnsweredBut(env, db, queries, work) && work != [] && HasAnswer(db.rows, work[0])
    ensures AllAnsweredBut(env, db, queries, work[1..])
  {
    SuffixTail(work, AnswerWork(env, queries));
    assert work == [work[0]] + work[1..];
  }

  lemma GenerationEndKeeps(env: Env, db: Db, l: Local)
    requires ValidEnv(env) && DbInvariant(env, db) && l.InGeneration? && l.work == []
    requires AnsweringFrom(env, db, l.queries, l.persisted, l.work)
    ensures Keeps(env, db, MoveTo(db, AfterGeneration(env.spec), l.queries).0,
                  MoveTo(db, AfterGeneration(env.spec), l.queries).1)
  {
    assert AllAnswered(env, db, l.queries);
    assert GenerationDone(env, db);
    MoveKeeps(env, db, AfterGeneration(env.spec), l.queries);
  }

  lemma AnsweredSkipKeeps(env: Env, db: Db, l: Local)
    requires DbInvariant(env, db) && l.InGeneration? && AnsweringFrom(env, db, l.queries, l.persisted, l.work)
    requires l.work != [] && HasAnswer(l.persisted, l.work[0])
    ensures Keeps(env, db, db, InGeneration(l.queries, l.persisted, l.work[1..]))
  {
    assert HasAnswer(db.rows, l.work[0]);
    AnsweredStepOver(env, db, l.queries, l.work);
    Unchanged(env, db, InGeneration(l.queries, l.persisted, l.work[1..]));
  }

  lemma AskKeeps(env: Env, db: Db, l: Local)
    requires DbInvariant(env, db) && l.InGeneration? && AnsweringFrom(env, db, l.queries, l.persisted, l.work)
    requires AtWork(l.work, l.persisted)
    ensures Keeps(env, db, db, Asking(l.queries, l.persisted, l.work))
  {
    Unchanged(env, db, Asking(l.queries, l.persisted, l.work));
  }

  lemma GenerateKeeps(env: Env, db: Db, l: Local)
    requires ValidEnv(env) && DbInvariant(env, db)
    requires l.InGeneration? && AnsweringFrom(env, db, l.queries, l.persisted, l.work)
    ensures Keeps(env, db, Generate(env, db, l).0, Generate(env, db, l).1)
  {
    Stopped(env, db);
    if l.work == [] {
      GenerationEndKeeps(env, db, l);
    } else if l.work[0] in l.persisted {
      AskKeeps(env, db, l);
      if l.persisted[l.work[0]].answer.Some? { AnsweredSkipKeeps(env, db, l); }
    }
  }

  lemma StoreAnswerKeeps(env: Env, db: Db, l: Local)
    requires ValidEnv(env) && DbInvariant(env, db) && l.Drafted?
    requires AnsweringFrom(env, db, l.queries, l.persisted, l.work) && AtWork(l.work, l.persisted)
    ensures Keeps(env, db, StoreAnswer(db, l).0, StoreAnswer(db, l).1)
  {
    var result := AfterAnswer(db, l.work[0], l.answer, AnswerScores(l.metrics), l.goldLabel);
    assert result.Ok?;
    AnswerKept(env, db, l);
    AnsweringKept(env, db, result.value, l.queries, l.persisted, l.work);
    AnsweredStepOver(env, result.value, l.queries, l.work);
    DraftStored(env, db, result.value, l);
  }

  lemma AnswerKept(env: Env, db: Db, l: Local)
    requires ValidEnv(env) && DbInvariant(env, db) && l.Drafted? && l.work != [] && l.work[0] in db.rows
    ensures var after := AfterAnswer(db, l.work[0], l.answer, AnswerScores(l.metrics), l.goldLabel).value;
            DbKept(env, db, after) && HasAnswer(after.rows, l.work[0])
  {
    var after := AfterAnswer(db, l.work[0], l.answer, AnswerScores(l.metrics), l.goldLabel).value;
    AnswerAdvances(env.spec, db, l.work[0], l.answer, l.metrics, l.goldLabel);
    VouchedKept(env, db, after, db.state);
  }

  lemma DraftStored(env: Env, db: Db, after: Db, l: Local)
    requires l.Drafted? && l.work != [] && DbKept(env, db, after)
    requires AnsweringFrom(env, after, l.queries, l.persisted, l.work)
    requires AllAnsweredBut(env, after, l.queries, l.work[1..])
    ensures Keeps(env, db, after, InGeneration(l.queries, l.persisted, l.work[1..]))
  {}

  lemma SettledStepOver(env: Env, db: Db, queries: Queries, work: seq<Work>)
    requires AllSettledBut(env, db, queries, work) && work != [] && Settled(env, db.rows, work[0])
    ensures AllSettledBut(env, db, queries, work[1..])
  {
    SuffixTail(work, AnswerWork(env, queries));
    assert work == [work[0]] + work[1..];
  }

  lemma SettledBySnapshot(env: Env, db: Db, persisted: map<Work, ResultRow>, work: Work)
    requires RowsKept(persisted, db.rows) && Settled(env, persisted, work)
    ensures Settled(env, db.rows, work)
  {
    ProfilesGrow(persisted[work].judgeRecords, db.rows[work].judgeRecords);
  }

  lemma JudgingEndKeeps(env: Env, db: Db, l: Local)
    requires ValidEnv(env) && DbInvariant(env, db) && l.InJudging? && l.work == []
    requires JudgingFrom(env, db, l.queries, l.persisted, l.work)
    ensures Keeps(env, db, MoveTo(db, Scoring, l.queries).0, MoveTo(db, Scoring, l.queries).1)
  {
    assert AllJudged(env, db, l.queries);
    assert JudgingDone(env, db);
    MoveKeeps(env, db, Scoring, l.queries);
  }

  lemma SettledSkipKeeps(env: Env, db: Db, l: Local)
    requires DbInvariant(env, db) && l.InJudging? && JudgingFrom(env, db, l.queries, l.persisted, l.work)
    requires l.work != [] && Settled(env, l.persisted, l.work[0])
    ensures Keeps(env, db, db, InJudging(l.queries, l.persisted, l.work[1..]))
  {
    SettledBySnapshot(env, db, l.persisted, l.work[0]);
    SettledStepOver(env, db, l.queries, l.work);
    Unchanged(env, db, InJudging(l.queries, l.persisted, l.work[1..]));
  }

  lemma JudgingStaysKeeps(env: Env, db: Db, l: Local)
    requires DbInvariant(env, db) && l.InJudging? && JudgingFrom(env, db, l.queries, l.persisted, l.work)
    ensures Keeps(env, db, db, l)
  {
    Unchanged(env, db, l);
  }

  lemma JudgeNextResults(env: Env, db: Db, l: Local)
    requires l.InJudging? && l.work != []
    ensures JudgeNext(env, db, l)
         == (db, if !HasAnswer(l.persisted, l.work[0]) then Raised
                 else if Settled(env, l.persisted, l.work[0]) then InJudging(l.queries, l.persisted, l.work[1..])
                 else l)
  {}

  lemma JudgeNextKeeps(env: Env, db: Db, l: Local)
    requires ValidEnv(env) && DbInvariant(env, db)
    requires l.InJudging? && JudgingFrom(env, db, l.queries, l.persisted, l.work)
    ensures Keeps(env, db, JudgeNext(env, db, l).0, JudgeNext(env, db, l).1)
  {
    if l.work == [] {
      JudgingEndKeeps(env, db, l);
    } else {
      JudgeNextResults(env, db, l);
      Stopped(env, db);
      JudgingStaysKeeps(env, db, l);
      if Settled(env, l.persisted, l.work[0]) { SettledSkipKeeps(env, db, l); }
    }
  }

  /** Judging exactly the profiles the snapshot was missing leaves none missing. */
  lemma VerdictsSettle(env: Env, db: Db, persisted: map<Work, ResultRow>, work: Work, verdicts: seq<JudgeRecord>)
    requires StoreInvariant(env.spec, db) && work in persisted && RowsKept(persisted, db.rows)
    requires Judgeable(persisted[work]) && Profiles(verdicts) == MissingProfiles(env.spec, persisted[work])
    ensures Settled(env, AfterJudges(db, work, verdicts).value.rows, work)
  {
    JudgeAllProfiles(db.rows[work], verdicts);
    assert RowConsistent(db.rows[work]);
    JudgeAllConsistent(db.rows[work], verdicts);
    ProfilesGrow(persisted[work].judgeRecords, db.rows[work].judgeRecords);
  }

  lemma VerdictsKept(env: Env, db: Db, work: Work, verdicts: seq<JudgeRecord>)
    requires ValidEnv(env) && DbInvariant(env, db) && work in db.rows
    ensures DbKept(env, db, AfterJudges(db, work, verdicts).value)
  {
    JudgesAdvance(env.spec, db, work, verdicts);
    VouchedKept(env, db, AfterJudges(db, work, verdicts).value, db.state);
  }

  lemma StoreVerdictsKeeps(env: Env, db: Db, l: Local)
    requires ValidEnv(env) && DbInvariant(env, db) && l.Judged? && LocalInvariant(env, db, l)
    ensures Keeps(env, db, StoreVerdicts(db, l).0, StoreVerdicts(db, l).1)
  {
    var result := AfterJudges(db, l.work[0], l.verdicts);
    assert result.Ok?;
    VerdictsKept(env, db, l.work[0], l.verdicts);
    JudgingKept(env, db, result.value, l.queries, l.persisted, l.work);
    VerdictsSettle(env, db, l.persisted, l.work[0], l.verdicts);
    SettledStepOver(env, result.value, l.queries, l.work);
    VerdictsStored(env, db, result.value, l);
  }

  lemma VerdictsStored(env: Env, db: Db, after: Db, l: Local)
    requires l.Judged? && l.work != [] && DbKept(env, db, after)
    requires JudgingFrom(env, after, l.queries, l.persisted, l.work)
    requires AllSettledBut(env, after, l.queries, l.work[1..])
    ensures Keeps(env, db, after, InJudging(l.queries, l.persisted, l.work[1..]))
  {}

  lemma AttemptKeeps(env: Env, db: Db, target: RunState)
    requires ValidEnv(env) && DbInvariant(env, db) && !PastRetrieval(target)
    ensures DbKept(env, db, Attempt(db, target))
  {
    if AfterState(db, target).Ok? { StateStep(env, db, target); } else { AdvancesReflexive(db); }
  }

  lemma RetrievalStepKeeps(env: Env, db: Db, l: Local)
    requires ValidEnv(env) && DbInvariant(env, db) && LocalInvariant(env, db, l)
    requires l.Progressed? || l.Entering? || l.InRetrieval? || l.Found? || l.Stamped? || l.Closing?
    ensures Keeps(env, db, Continue(env, db, l).0, Continue(env, db, l).1)
  {
    match l
    case Progressed(queries, pinned) =>
      Stopped(env, db);
      if AfterState(db, RunState.Retrieving).Ok? { EnterRetrievalKeeps(env, db, queries, pinned); }
    case Entering(queries, pinned) => SnapshotKeeps(env, db, queries, pinned);
    case InRetrieval(_, _, _, _) => RetrievedKeeps(env, db, l);
    case Found(_, _, _, _, _) => StampKeeps(env, db, l);
    case Stamped(_, _, _, _, _) => StoreKeeps(env, db, l);
    case Closing(queries) => CloseKeeps(env, db, queries);
  }

  lemma AnswerStepKeeps(env: Env, db: Db, l: Local)
    requires ValidEnv(env) && DbInvariant(env, db) && LocalInvariant(env, db, l)
    requires l.InGeneration? || l.Asking? || l.Drafted? || l.InJudging? || l.Judged?
    ensures Keeps(env, db, Continue(env, db, l).0, Continue(env, db, l).1)
  {
    match l
    case InGeneration(_, _, _) => GenerateKeeps(env, db, l);
    case Asking(_, _, _) => Unchanged(env, db, l);
    case Drafted(_, _, _, _, _, _) => StoreAnswerKeeps(env, db, l);
    case InJudging(_, _, _) => JudgeNextKeeps(env, db, l);
    case Judged(_, _, _, _) => StoreVerdictsKeeps(env, db, l);
  }

  lemma OpeningStepKeeps(env: Env, db: Db, l: Local)
    requires ValidEnv(env) && DbInvariant(env, db) && LocalInvariant(env, db, l)
    requires l.Idle? || l.Raised? || l.MarkingFailed? || l.Fetched? || l.Prepared? || l.Planned? || l.Opening?
    ensures Keeps(env, db, Continue(env, db, l).0, Continue(env, db, l).1)
  {
    Stopped(env, db);
    match l
    case Idle => BeginKeeps(env, db);
    case Raised =>
    case MarkingFailed => AttemptKeeps(env, db, Failed);
    case Fetched(run) => PrepareKeeps(env, db, run);
    case Prepared(_) => Unchanged(env, db, l);
    case Planned(run, queries) => InitializeKeeps(env, db, run, queries);
    case Opening(state, queries) => OpenKeeps(env, db, state, queries);
  }

  lemma ContinueKeeps(env: Env, db: Db, l: Local)
    requires ValidEnv(env) && DbInvariant(env, db) && LocalInvariant(env, db, l)
    ensures Keeps(env, db, Continue(env, db, l).0, Continue(env, db, l).1)
  {
    if l.Progressed? || l.Entering? || l.InRetrieval? || l.Found? || l.Stamped? || l.Closing? {
      RetrievalStepKeeps(env, db, l);
    } else if l.InGeneration? || l.Asking? || l.Drafted? || l.InJudging? || l.Judged? {
      AnswerStepKeeps(env, db, l);
    } else {
      OpeningStepKeeps(env, db, l);
    }
  }

  lemma LoadKeeps(env: Env, db: Db, l: Local, action: Action)
    requires DbInvariant(env, db) && LocalInvariant(env, db, l) && action.Load? && action.dataset in env.versions
    ensures Keeps(env, db, Next(env, db, l, action).0, Next(env, db, l, action).1)
  {
    if l.Prepared? { PlanKeeps(env, db, l.run, action.dataset, action.currentHashes); } else { Unchanged(env, db, l); }
  }

  lemma RetrieveKeeps(env: Env, db: Db, l: Local, action: Action)
    requires DbInvariant(env, db) && LocalInvariant(env, db, l) && action.Retrieve?
    ensures Keeps(env, db, Next(env, db, l, action).0, Next(env, db, l, action).1)
  {
    if l.InRetrieval? && l.todo != [] && l.todo[0].Search? && l.todo[0].work !in l.done {
      ReceiveKeeps(env, db, l, action.response);
    } else {
      Unchanged(env, db, l);
    }
  }

  lemma DraftKeeps(env: Env, db: Db, l: Local, answer: AnswerResponse, metrics: AnswerMetrics,
                   gold: Option<SciFactLabel>)
    requires DbInvariant(env, db) && LocalInvariant(env, db, l) && l.Asking?
    ensures Keeps(env, db, db, Drafted(l.queries, l.persisted, l.work, answer, metrics, gold))
  {
    Unchanged(env, db, Drafted(l.queries, l.persisted, l.work, answer, metrics, gold));
  }

  lemma AnswerKeeps(env: Env, db: Db, l: Local, action: Action)
    requires DbInvariant(env, db) && LocalInvariant(env, db, l) && action.Answer?
    ensures Keeps(env, db, Next(env, db, l, action).0, Next(env, db, l, action).1)
  {
    if l.Asking? {
      DraftKeeps(env, db, l, action.answer, action.metrics, action.goldLabel);
    } else {
      Unchanged(env, db, l);
    }
  }

  lemma JudgeKeeps(env: Env, db: Db, l: Local, action: Action)
    requires DbInvariant(env, db) && LocalInvariant(env, db, l) && action.Judge?
    ensures Keeps(env, db, Next(env, db, l, action).0, Next(env, db, l, action).1)
  {
    if AsksMissing(env, l, action.verdicts) {
      Unchanged(env, db, Judged(l.queries, l.persisted, l.work, action.verdicts));
    } else {
      Unchanged(env, db, l);
    }
  }

  /** Every step of a runner, whatever its providers return and wherever it dies, keeps the tables sound. */
  lemma NextKeeps(env: Env, db: Db, l: Local, action: Action)
    requires ValidEnv(env) && DbInvariant(env, db) && LocalInvariant(env, db, l)
    requires action.Load? ==> action.dataset in env.versions
    ensures Keeps(env, db, Next(env, db, l, action).0, Next(env, db, l, action).1)
  {
    if action.Proceed? {
      ContinueKeeps(env, db, l);
    } else if action.Load? {
      LoadKeeps(env, db, l, action);
    } else if action.Retrieve? {
      RetrieveKeeps(env, db, l, action);
    } else if action.Answer? {
      AnswerKeeps(env, db, l, action);
    } else if action.Judge? {
      JudgeKeeps(env, db, l, action);
    } else {
      Stopped(env, db);
    }
  }
}
