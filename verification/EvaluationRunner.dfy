/**
 * The resumable evaluation runner: one committed transaction per step, any number of runners on the same run, each
 * of which may die between two steps and be started again.
 */
module EvaluationRunner {
  import opened Prelude
  import opened GenerationContract
  import opened EvaluationContract
  import opened EvaluationStore
  import opened EvaluationPlan
  import opened Sampling
  import RetrievalMetrics

  /** What is fixed for a run; `versions` holds every content the dataset may have when a runner loads it. */
  datatype Env = Env(spec: EvalRunSpec, digest: Digest, variantHashes: map<Variant, Hash>, versions: set<Queries>)

  ghost predicate ValidEnv(env: Env) {
    && env.spec.Valid()
    && env.variantHashes.Keys == ToSet(env.spec.variants)
    && forall d <- env.versions :: Distinct(d) && UniqueExternalIds(d)
  }

  datatype Response = Response(
    variantHash: Hash, indexFingerprint: Fingerprint, ranking: seq<string>, scores: RetrievalMetrics.Scores)

  /** A copy of the run's row, as old as the read that made it. */
  datatype RunView = RunView(state: RunState, completed: nat, pinned: map<Variant, Fingerprint>)

  function View(db: Db): RunView {
    RunView(db.state, db.completedQueries, db.indexFingerprints)
  }

  /** Where a runner stands between two transactions, with the local variables that are live there. */
  datatype Local =
    | Idle
    | Raised
    | MarkingFailed
    | Fetched(run: RunView)
    | Prepared(run: RunView)
    | Planned(run: RunView, queries: Queries)
    | Progressed(queries: Queries, pinned: map<Variant, Fingerprint>)
    | Entering(queries: Queries, pinned: map<Variant, Fingerprint>)
    | InRetrieval(queries: Queries, pinned: map<Variant, Fingerprint>, done: set<Work>, todo: seq<Item>)
    | Found(queries: Queries, pinned: map<Variant, Fingerprint>, done: set<Work>, todo: seq<Item>, response: Response)
    | Stamped(queries: Queries, pinned: map<Variant, Fingerprint>, done: set<Work>, todo: seq<Item>, response: Response)
    | Closing(queries: Queries)
    | Opening(state: RunState, queries: Queries)
    | InGeneration(queries: Queries, persisted: map<Work, ResultRow>, work: seq<Work>)
    | Asking(queries: Queries, persisted: map<Work, ResultRow>, work: seq<Work>)
    | Drafted(queries: Queries, persisted: map<Work, ResultRow>, work: seq<Work>,
               answer: AnswerResponse, metrics: AnswerMetrics, goldLabel: Option<SciFactLabel>)
    | InJudging(queries: Queries, persisted: map<Work, ResultRow>, work: seq<Work>)
    | Judged(queries: Queries, persisted: map<Work, ResultRow>, work: seq<Work>, verdicts: seq<JudgeRecord>)

  /** What the outside world decides: which step comes next and what a provider returns. */
  datatype Action =
    | Proceed
    | Load(dataset: Queries, currentHashes: map<Variant, Hash>)
    | Retrieve(response: Response)
    | Answer(answer: AnswerResponse, metrics: AnswerMetrics, goldLabel: Option<SciFactLabel>)
    | Judge(verdicts: seq<JudgeRecord>)
    | Fail
    | Crash

  // ---- One step ----

  function Select(env: Env, dataset: Queries): Result<Queries, SampleError> {
    SelectEvaluationQueries(dataset, env.spec.sampleSize, env.spec.seed, env.digest)
  }

  function GenerationQueries(env: Env, queries: Queries): Result<Queries, SampleError> {
    SelectEvaluationQueries(queries, env.spec.generationSampleSize, env.spec.seed, env.digest)
  }

  function AnswerWork(env: Env, queries: Queries): seq<Work> {
    var generation := GenerationQueries(env, queries);
    if generation.Err? then [] else WorkList(generation.value, env.spec.AnsweredVariants())
  }

  function TotalWork(env: Env, queries: Queries): nat {
    |queries| * |env.spec.variants|
  }

  predicate Judgeable(row: ResultRow) {
    row.answer.Some? && Generated(row.answer.value.outcome)
  }

  function MissingProfiles(spec: EvalRunSpec, row: ResultRow): set<Profile> {
    ToSet(spec.judgeProfiles) - Profiles(row.judgeRecords)
  }

  /** Continue with the transaction's result, or raise its error. */
  function Commit(db: Db, result: Result<Db, StoreError>, next: Db -> Local): (Db, Local) {
    if result.Ok? then (result.value, next(result.value)) else (db, Raised)
  }

  function Begin(db: Db): Local {
    if db.state.Terminal() || db.state.Created? then Idle else Fetched(View(db))
  }

  function Prepare(db: Db, run: RunView): (Db, Local) {
    if run.state.Queued? then Commit(db, AfterState(db, Preparing), after => Prepared(View(after)))
    else (db, Prepared(run))
  }

  function Plan(env: Env, run: RunView, dataset: Queries, currentHashes: map<Variant, Hash>): Local {
    var queries := Select(env, dataset);
    if queries.Err? || queries.value == [] || currentHashes != env.variantHashes then Raised
    else Planned(run, queries.value)
  }

  function Initialize(env: Env, db: Db, run: RunView, queries: Queries): (Db, Local) {
    var progress := AfterProgress(db, run.completed, TotalWork(env, queries));
    match run.state
    case Preparing => Commit(db, progress, after => Progressed(queries, run.pinned))
    case Retrieving => Commit(db, progress, (after: Db) => Dispatch(after.state, queries, run.pinned))
    case _ => (db, Dispatch(run.state, queries, run.pinned))
  }

  function Dispatch(state: RunState, queries: Queries, pinned: map<Variant, Fingerprint>): Local {
    if state == Retrieving then Entering(queries, pinned) else Opening(state, queries)
  }

  function Retrieved(env: Env, db: Db, l: Local): Local
    requires l.InRetrieval?
  {
    if l.todo == [] then
      if db.state.Cancelled? then Idle
      else if db.completedQueries != TotalWork(env, l.queries) then Raised
      else if ToSet(env.spec.variants) - db.indexFingerprints.Keys != {} then Raised
      else Closing(l.queries)
    else if l.todo[0].CheckCancelled? then
      if db.state.Cancelled? then Idle else InRetrieval(l.queries, l.pinned, l.done, l.todo[1..])
    else if l.todo[0].work in l.done then InRetrieval(l.queries, l.pinned, l.done, l.todo[1..])
    else l
  }

  function Receive(env: Env, l: Local, response: Response): Local
    requires l.InRetrieval? && l.todo != [] && l.todo[0].Search?
  {
    var v := l.todo[0].work.variant;
    if v !in env.variantHashes || response.variantHash != env.variantHashes[v] then Raised
    else if v !in l.pinned then Found(l.queries, l.pinned, l.done, l.todo, response)
    else if l.pinned[v] != response.indexFingerprint then Raised
    else Stamped(l.queries, l.pinned, l.done, l.todo, response)
  }

  function Stamp(env: Env, db: Db, l: Local): (Db, Local)
    requires l.Found? && l.todo != [] && l.todo[0].Search?
  {
    var v, fingerprint := l.todo[0].work.variant, l.response.indexFingerprint;
    Commit(db, AfterPin(env.spec, db, v, fingerprint),
           after => Stamped(l.queries, l.pinned[v := fingerprint], l.done, l.todo, l.response))
  }

  function Store(db: Db, l: Local): (Db, Local)
    requires l.Stamped? && l.todo != [] && l.todo[0].Search?
  {
    Commit(db, AfterResult(db, l.todo[0].work, NewRow(l.response.ranking, l.response.scores)),
           after => InRetrieval(l.queries, l.pinned, l.done, l.todo[1..]))
  }

  function AfterRetrieval(spec: EvalRunSpec): RunState {
    if spec.generationEnabled then Generating else Scoring
  }

  function AfterGeneration(spec: EvalRunSpec): RunState {
    if spec.judgeProfiles != [] then Judging else Scoring
  }

  function MoveTo(db: Db, target: RunState, queries: Queries): (Db, Local) {
    Commit(db, AfterState(db, target), after => Opening(target, queries))
  }

  function Open(env: Env, db: Db, state: RunState, queries: Queries): (Db, Local) {
    if GenerationQueries(env, queries).Err? then (db, Raised)
    else
      match state
      case Generating => (db, InGeneration(queries, db.rows, AnswerWork(env, queries)))
      case Judging => (db, InJudging(queries, db.rows, AnswerWork(env, queries)))
      case Scoring => Commit(db, AfterState(db, Completed), after => Idle)
      case _ => (db, Idle)
  }

  function Generate(env: Env, db: Db, l: Local): (Db, Local)
    requires l.InGeneration?
  {
    if l.work == [] then MoveTo(db, AfterGeneration(env.spec), l.queries)
    else if l.work[0] !in l.persisted then (db, Raised)
    else if l.persisted[l.work[0]].answer.Some? then (db, InGeneration(l.queries, l.persisted, l.work[1..]))
    else if db.state.Cancelled? then (db, Idle)
    else (db, Asking(l.queries, l.persisted, l.work))
  }

  function StoreAnswer(db: Db, l: Local): (Db, Local)
    requires l.Drafted? && l.work != []
  {
    Commit(db, AfterAnswer(db, l.work[0], l.answer, AnswerScores(l.metrics), l.goldLabel),
           after => InGeneration(l.queries, l.persisted, l.work[1..]))
  }

  function JudgeNext(env: Env, db: Db, l: Local): (Db, Local)
    requires l.InJudging?
  {
    if l.work == [] then MoveTo(db, Scoring, l.queries)
    else if l.work[0] !in l.persisted || l.persisted[l.work[0]].answer.None? then (db, Raised)
    else if !Judgeable(l.persisted[l.work[0]]) || MissingProfiles(env.spec, l.persisted[l.work[0]]) == {} then
      (db, InJudging(l.queries, l.persisted, l.work[1..]))
    else (db, l)
  }

  /** The judge stage asks exactly the profiles that the row it loaded was missing, each once. */
  predicate AsksMissing(env: Env, l: Local, verdicts: seq<JudgeRecord>) {
    && l.InJudging? && l.work != [] && l.work[0] in l.persisted
    && Judgeable(l.persisted[l.work[0]])
    && MissingProfiles(env.spec, l.persisted[l.work[0]]) != {}
    && Profiles(verdicts) == MissingProfiles(env.spec, l.persisted[l.work[0]])
    && DistinctProfiles(verdicts)
  }

  function StoreVerdicts(db: Db, l: Local): (Db, Local)
    requires l.Judged? && l.work != []
  {
    Commit(db, AfterJudges(db, l.work[0], l.verdicts), after => InJudging(l.queries, l.persisted, l.work[1..]))
  }

  function MarkFailed(db: Db): Db {
    var failed := AfterState(db, Failed);
    if failed.Ok? then failed.value else db
  }

  function Continue(env: Env, db: Db, l: Local): (Db, Local) {
    match l
    case Idle => (db, Begin(db))
    case Raised => (db, if db.state.Terminal() then Idle else MarkingFailed)
    case MarkingFailed => (MarkFailed(db), Idle)
    case Fetched(run) => Prepare(db, run)
    case Prepared(_) => (db, l)
    case Planned(run, queries) => Initialize(env, db, run, queries)
    case Progressed(queries, pinned) =>
      Commit(db, AfterState(db, Retrieving), after => Entering(queries, pinned))
    case Entering(queries, pinned) =>
      (db, InRetrieval(queries, pinned, db.rows.Keys, Program(queries, env.spec.variants)))
    case InRetrieval(_, _, _, _) => (db, Retrieved(env, db, l))
    case Found(_, _, _, todo, _) => if todo != [] && todo[0].Search? then Stamp(env, db, l) else (db, l)
    case Stamped(_, _, _, todo, _) => if todo != [] && todo[0].Search? then Store(db, l) else (db, l)
    case Closing(queries) => MoveTo(db, AfterRetrieval(env.spec), queries)
    case Opening(state, queries) => Open(env, db, state, queries)
    case InGeneration(_, _, _) => Generate(env, db, l)
    case Asking(_, _, _) => (db, l)
    case Drafted(_, _, work, _, _, _) => if work != [] then StoreAnswer(db, l) else (db, l)
    case InJudging(_, _, _) => JudgeNext(env, db, l)
    case Judged(_, _, work, _) => if work != [] then StoreVerdicts(db, l) else (db, l)
  }

  predicate InHandler(l: Local) {
    l.Raised? || l.MarkingFailed?
  }

  function Next(env: Env, db: Db, l: Local, action: Action): (Db, Local) {
    match action
    case Proceed => Continue(env, db, l)
    case Load(dataset, currentHashes) =>
      (db, if l.Prepared? then Plan(env, l.run, dataset, currentHashes) else l)
    case Retrieve(response) =>
      if l.InRetrieval? && l.todo != [] && l.todo[0].Search? && l.todo[0].work !in l.done then
        (db, Receive(env, l, response))
      else (db, l)
    case Answer(answer, metrics, goldLabel) =>
      (db, if l.Asking? then Drafted(l.queries, l.persisted, l.work, answer, metrics, goldLabel) else l)
    case Judge(verdicts) =>
      (db, if AsksMissing(env, l, verdicts) then Judged(l.queries, l.persisted, l.work, verdicts) else l)
    case Fail => (db, if l.Idle? || InHandler(l) then Idle else Raised)
    case Crash => (db, Idle)
  }

  // ---- The whole system ----

  type RunnerId = nat

  /** The tables, where every runner stands, and for each stored row the response it was made from. */
  datatype World = World(db: Db, runners: map<RunnerId, Local>, origin: map<Work, Response>)
  {
    function At(r: RunnerId): Local {
      if r in runners then runners[r] else Idle
    }
  }

  datatype Event = Step(runner: RunnerId, action: Action) | Enqueue | Cancel

  function OriginAfter(db: Db, after: Db, l: Local, origin: map<Work, Response>): map<Work, Response> {
    if l.Stamped? && l.todo != [] && l.todo[0].Search? && l.todo[0].work in after.rows
        && l.todo[0].work !in db.rows then
      origin[l.todo[0].work := l.response]
    else origin
  }

  function Attempt(db: Db, target: RunState): Db {
    var r := AfterState(db, target);
    if r.Ok? then r.value else db
  }

  function Apply(env: Env, world: World, event: Event): World {
    match event
    case Enqueue => world.(db := Attempt(world.db, Queued))
    case Cancel => world.(db := Attempt(world.db, Cancelled))
    case Step(r, action) =>
      var (db, l) := Next(env, world.db, world.At(r), action);
      World(db, world.runners[r := l], OriginAfter(world.db, db, world.At(r), world.origin))
  }

  const EMPTY_RUN: World := World(Db(Created, 0, 0, map[], map[]), map[], map[])

  /** Events are possible when a loaded dataset is one of the versions it may have. */
  predicate Possible(env: Env, events: seq<Event>) {
    forall e <- events :: e.Step? && e.action.Load? ==> e.action.dataset in env.versions
  }

  function Execute(env: Env, events: seq<Event>): World {
    if events == [] then EMPTY_RUN
    else Apply(env, Execute(env, events[..|events| - 1]), events[|events| - 1])
  }
}
