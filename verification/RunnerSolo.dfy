/**
 * One live runner at a time on an unchanging dataset: a runner that dies is replaced only after it is gone. Runners
 * keep nothing between lives, so every life may be told as the same runner crashing and beginning again.
 */
module RunnerSolo {
  import opened Prelude
  import opened EvaluationContract
  import opened EvaluationStore
  import opened EvaluationPlan
  import opened Sampling
  import opened EvaluationRunner
  import opened RunnerSafety
  import opened RunnerHistory

  const ALONE: RunnerId := 0

  predicate Solo(events: seq<Event>) {
    forall e <- events :: e.Step? ==> e.runner == ALONE
  }

  /** The dataset's one content, what is selected from it, and why a runner can only work on that. */
  ghost predicate Frozen(env: Env, dataset: Queries, selected: Queries) {
    ValidEnv(env) && env.versions == {dataset} && Select(env, dataset) == Ok(selected) && selected != []
  }

  lemma OnlySelection(env: Env, dataset: Queries, selected: Queries, queries: Queries)
    requires Frozen(env, dataset, selected)
    ensures Selectable(env, queries) <==> queries == selected
  {
    OneVersion(env, dataset, queries);
  }

  // ---- What holds of the tables and of the runner ----

  /** The tables hold only work of the selection, and the total is unset or that work's size. */
  predicate SoloDb(env: Env, db: Db, selected: Queries) {
    && (db.totalQueries == 0 || db.totalQueries == TotalWork(env, selected))
    && db.rows.Keys <= WorkSet(selected, env.spec.variants)
  }

  /** What the runner believes the state to be is the state, unless a user cancelled meanwhile. */
  predicate Current(db: Db, state: RunState) {
    db.state == state || db.state.Cancelled?
  }

  predicate CurrentView(db: Db, run: RunView) {
    && Current(db, run.state) && !run.state.Terminal() && !run.state.Created?
    && run.completed == db.completedQueries && run.pinned == db.indexFingerprints
  }

  /** No search that is still ahead is for work already stored. */
  predicate NothingAheadIsStored(db: Db, done: set<Work>, todo: seq<Item>) {
    forall w :: Search(w) in todo && w !in done ==> w !in db.rows
  }

  predicate AnswersCurrent(db: Db, persisted: map<Work, ResultRow>, work: seq<Work>) {
    forall w <- work :: w in persisted && w in db.rows && db.rows[w].answer == persisted[w].answer
  }

  predicate VerdictsCurrent(db: Db, persisted: map<Work, ResultRow>, work: seq<Work>) {
    forall w <- work :: w in persisted && w in db.rows
                        && db.rows[w].answer == persisted[w].answer
                        && db.rows[w].judgeRecords == persisted[w].judgeRecords
  }

  predicate SoloLocal(db: Db, l: Local) {
    match l
    case Idle => true
    case Raised => true
    case MarkingFailed => true
    case Fetched(run) => CurrentView(db, run)
    case Prepared(run) => CurrentView(db, run) && !run.state.Queued?
    case Planned(run, _) => CurrentView(db, run) && !run.state.Queued?
    case Progressed(_, pinned) => Current(db, RunState.Preparing) && pinned == db.indexFingerprints
    case Entering(_, pinned) => Current(db, RunState.Retrieving) && pinned == db.indexFingerprints
    case InRetrieval(_, pinned, done, todo) =>
      Current(db, RunState.Retrieving) && pinned == db.indexFingerprints && NothingAheadIsStored(db, done, todo)
    case Found(_, pinned, done, todo, _) =>
      && Current(db, RunState.Retrieving) && pinned == db.indexFingerprints && NothingAheadIsStored(db, done, todo)
      && todo != [] && todo[0].Search? && todo[0].work.variant !in pinned
    case Stamped(_, pinned, done, todo, _) =>
      Current(db, RunState.Retrieving) && pinned == db.indexFingerprints && NothingAheadIsStored(db, done, todo)
    case Closing(_) => Current(db, RunState.Retrieving)
    case Opening(state, _) => Current(db, state)
        && state in {RunState.Generating, RunState.Judging, Scoring, RunState.Cancelled}
    case InGeneration(_, persisted, work) => Current(db, RunState.Generating) && AnswersCurrent(db, persisted, work)
    case Asking(_, persisted, work) =>
      && Current(db, RunState.Generating) && AnswersCurrent(db, persisted, work)
      && work != [] && persisted[work[0]].answer.None?
    case Drafted(_, persisted, work, _, _, _) =>
      && Current(db, RunState.Generating) && AnswersCurrent(db, persisted, work)
      && work != [] && persisted[work[0]].answer.None?
    case InJudging(_, persisted, work) => Current(db, RunState.Judging) && VerdictsCurrent(db, persisted, work)
    case Judged(_, persisted, work, _) => Current(db, RunState.Judging) && VerdictsCurrent(db, persisted, work)
  }

  ghost predicate SoloSound(env: Env, world: World, selected: Queries) {
    && SoloDb(env, world.db, selected)
    && SoloLocal(world.db, world.At(ALONE))
  }

  /** A step keeps what holds alone, raises only for an outside reason, and returns only when the run has ended. */
  ghost predicate SoloStep(env: Env, db: Db, after: Db, next: Local, selected: Queries) {
    && SoloDb(env, after, selected) && SoloLocal(after, next)
    && (next.Raised? ==> db.state.Cancelled? || GenerationQueries(env, selected).Err?)
    && (next.Idle? ==> after.state in {Completed, RunState.Cancelled})
  }

  // ---- Distinct work: finishing one item leaves the others as they were ----

  lemma SearchedOnce(env: Env, queries: Queries, todo: seq<Item>)
    requires DistinctIds(queries) && Distinct(env.spec.variants)
    requires IsSuffix(todo, Program(queries, env.spec.variants)) && todo != [] && todo[0].Search?
    ensures todo[0] !in todo[1..]
  {
    var whole := Program(queries, env.spec.variants);
    var k := |whole| - |todo|;
    forall i | 0 <= i < |todo[1..]| ensures todo[1..][i] != todo[0] {
      ProgramSearchesOnce(queries, env.spec.variants, k, k + 1 + i);
      assert whole[k] == todo[0] && whole[k + 1 + i] == todo[1..][i];
    }
  }

  lemma ListedOnce<T>(whole: seq<T>, rest: seq<T>)
    requires Distinct(whole) && IsSuffix(rest, whole) && rest != []
    ensures rest[0] !in rest[1..]
  {
    var k := |whole| - |rest|;
    forall i | 0 <= i < |rest[1..]| ensures rest[1..][i] != rest[0] {
      assert whole[k] == rest[0] && whole[k + 1 + i] == rest[1..][i];
    }
  }

  lemma AnswerWorkDistinct(env: Env, dataset: Queries, selected: Queries)
    requires Frozen(env, dataset, selected)
    ensures Distinct(AnswerWork(env, selected))
  {
    OnlySelection(env, dataset, selected, selected);
    SelectionMeaning(dataset, env.spec.sampleSize, env.spec.seed, env.digest);
    SelectionMeaning(selected, env.spec.generationSampleSize, env.spec.seed, env.digest);
    var generation := GenerationQueries(env, selected);
    if generation.Ok? {
      assert UniqueExternalIds(selected) && UniqueExternalIds(generation.value);
      DistinctIdsOf(generation.value);
      WorkListDistinct(generation.value, env.spec.AnsweredVariants());
    }
  }

  // ---- Retrieval steps ----

  lemma SnapshotIsSolo(env: Env, db: Db, queries: Queries)
    ensures NothingAheadIsStored(db, db.rows.Keys, Program(queries, env.spec.variants))
  {}

  lemma PopKeepsAhead(db: Db, done: set<Work>, todo: seq<Item>)
    requires NothingAheadIsStored(db, done, todo) && todo != []
    ensures NothingAheadIsStored(db, done, todo[1..])
  {
    assert forall item <- todo[1..] :: item in todo;
  }

  lemma StoreKeepsAhead(before: Db, after: Db, done: set<Work>, todo: seq<Item>)
    requires NothingAheadIsStored(before, done, todo) && todo != [] && todo[0].Search?
    requires todo[0] !in todo[1..] && after.rows.Keys == before.rows.Keys + {todo[0].work}
    ensures NothingAheadIsStored(after, done, todo[1..])
  {
    forall w | Search(w) in todo[1..] && w !in done ensures w !in after.rows {
      assert Search(w) in todo;
      assert w != todo[0].work;
    }
  }

  lemma HeadIsInPlan(env: Env, db: Db, l: Local)
    requires LocalInvariant(env, db, l) && l.Stamped?
    ensures l.todo[0].work in WorkSet(l.queries, env.spec.variants)
  {
    SuffixMember(l.todo, Program(l.queries, env.spec.variants), l.todo[0]);
    ProgramMembers(l.queries, env.spec.variants, l.todo[0].work);
    WorkSetMeaning(l.queries, env.spec.variants, l.todo[0].work);
  }

  lemma SubsetIsSmaller<T>(a: set<T>, b: set<T>)
    requires a <= b
    ensures |a| <= |b|
  {
    assert b == a + (b - a);
  }

  lemma InsertIsSubset<T>(keys: set<T>, whole: set<T>, x: T)
    requires keys <= whole && x in whole
    ensures keys + {x} <= whole
    ensures |keys + {x}| <= |whole|
  {
    SubsetIsSmaller(keys + {x}, whole);
  }

  lemma RowCount(rows: map<Work, ResultRow>, work: Work, row: ResultRow)
    ensures |rows[work := row]| == |rows.Keys + {work}|
  {
    assert rows[work := row].Keys == rows.Keys + {work};
  }

  /** Storing a search result never exceeds the configured total. */
  lemma StoreFits(env: Env, db: Db, l: Local, selected: Queries)
    requires ValidEnv(env) && LocalInvariant(env, db, l) && l.Stamped? && l.queries == selected
    requires SoloDb(env, db, selected) && Selectable(env, selected)
    ensures db.rows.Keys + {l.todo[0].work} <= WorkSet(selected, env.spec.variants)
    ensures AfterResult(db, l.todo[0].work, NewRow(l.response.ranking, l.response.scores)).Ok?
  {
    HeadIsInPlan(env, db, l);
    SelectableFacts(env, selected);
    InsertIsSubset(db.rows.Keys, WorkSet(selected, env.spec.variants), l.todo[0].work);
    RowCount(db.rows, l.todo[0].work, NewRow(l.response.ranking, l.response.scores));
  }

  lemma StoredIsSolo(env: Env, db: Db, l: Local, selected: Queries)
    requires l.Stamped? && SoloDb(env, db, selected) && SoloLocal(db, l)
    requires l.todo != [] && l.todo[0].Search? && l.todo[0] !in l.todo[1..]
    requires db.rows.Keys + {l.todo[0].work} <= WorkSet(selected, env.spec.variants)
    requires AfterResult(db, l.todo[0].work, NewRow(l.response.ranking, l.response.scores)).Ok?
    ensures Store(db, l).1.InRetrieval?
    ensures SoloDb(env, Store(db, l).0, selected) && SoloLocal(Store(db, l).0, Store(db, l).1)
  {
    var row := NewRow(l.response.ranking, l.response.scores);
    var after := AfterResult(db, l.todo[0].work, row).value;
    ResultKeys(db, l.todo[0].work, row);
    StoreKeepsAhead(db, after, l.done, l.todo);
    assert Store(db, l) == (after, InRetrieval(l.queries, l.pinned, l.done, l.todo[1..]));
  }

  lemma StoreIsSolo(env: Env, db: Db, l: Local, dataset: Queries, selected: Queries)
    requires Frozen(env, dataset, selected) && LocalInvariant(env, db, l) && l.Stamped?
    requires SoloDb(env, db, selected) && SoloLocal(db, l)
    ensures Store(db, l).1.InRetrieval?
    ensures SoloDb(env, Store(db, l).0, selected) && SoloLocal(Store(db, l).0, Store(db, l).1)
  {
    OnlySelection(env, dataset, selected, l.queries);
    SelectableFacts(env, l.queries);
    StoreFits(env, db, l, selected);
    SearchedOnce(env, l.queries, l.todo);
    StoredIsSolo(env, db, l, selected);
  }

  lemma PinIsSolo(env: Env, db: Db, l: Local, selected: Queries)
    requires ValidEnv(env) && LocalInvariant(env, db, l) && l.Found? && SoloDb(env, db, selected) && SoloLocal(db, l)
    ensures Stamp(env, db, l).1.Stamped?
    ensures SoloDb(env, Stamp(env, db, l).0, selected) && SoloLocal(Stamp(env, db, l).0, Stamp(env, db, l).1)
  {
    var v, fingerprint := l.todo[0].work.variant, l.response.indexFingerprint;
    assert v in ToSet(env.spec.variants);
    var after := AfterPin(env.spec, db, v, fingerprint).value;
    assert Stamp(env, db, l)
        == (after, Stamped(l.queries, l.pinned[v := fingerprint], l.done, l.todo, l.response));
  }

  lemma RetrievedIsSolo(env: Env, db: Db, l: Local)
    requires ValidEnv(env) && DbInvariant(env, db) && LocalInvariant(env, db, l) && l.InRetrieval? && SoloLocal(db, l)
    ensures SoloLocal(db, Retrieved(env, db, l)) && !Retrieved(env, db, l).Raised?
    ensures Retrieved(env, db, l).Idle? ==> db.state.Cancelled?
  {
    if l.todo == [] {
      LoopEndCovers(env, db, l);
    } else {
      PopKeepsAhead(db, l.done, l.todo);
    }
  }

  lemma ReceiveIsSolo(env: Env, db: Db, l: Local, response: Response)
    requires l.InRetrieval? && SoloLocal(db, l)
    requires l.todo != [] && l.todo[0].Search? && l.todo[0].work !in l.done
    ensures SoloLocal(db, Receive(env, l, response))
  {}

  // ---- Opening steps ----

  lemma PrepareIsSolo(env: Env, db: Db, run: RunView, selected: Queries)
    requires SoloDb(env, db, selected) && SoloLocal(db, Fetched(run))
    ensures SoloDb(env, Prepare(db, run).0, selected) && SoloLocal(Prepare(db, run).0, Prepare(db, run).1)
    ensures Prepare(db, run).1.Raised? ==> db.state.Cancelled?
    ensures !Prepare(db, run).1.Idle?
  {}

  /** The total a restarted runner computes is always the one already stored. */
  lemma ProgressFits(env: Env, db: Db, run: RunView, dataset: Queries, selected: Queries)
    requires Frozen(env, dataset, selected) && StoreInvariant(env.spec, db)
    requires SoloDb(env, db, selected) && CurrentView(db, run)
    ensures AfterProgress(db, run.completed, TotalWork(env, selected))
         == Ok(db.(totalQueries := TotalWork(env, selected)))
  {
    OnlySelection(env, dataset, selected, selected);
    SelectableFacts(env, selected);
    SubsetIsSmaller(db.rows.Keys, WorkSet(selected, env.spec.variants));
  }

  lemma InitializeIsSolo(env: Env, db: Db, l: Local, dataset: Queries, selected: Queries)
    requires Frozen(env, dataset, selected) && DbInvariant(env, db) && LocalInvariant(env, db, l)
    requires l.Planned? && SoloDb(env, db, selected) && SoloLocal(db, l)
    ensures SoloDb(env, Initialize(env, db, l.run, l.queries).0, selected)
    ensures SoloLocal(Initialize(env, db, l.run, l.queries).0, Initialize(env, db, l.run, l.queries).1)
    ensures !Initialize(env, db, l.run, l.queries).1.Raised? && !Initialize(env, db, l.run, l.queries).1.Idle?
  {
    OnlySelection(env, dataset, selected, l.queries);
    ProgressFits(env, db, l.run, dataset, selected);
    var after := db.(totalQueries := TotalWork(env, selected));
    if l.run.state.Preparing? {
      assert Initialize(env, db, l.run, l.queries) == (after, Progressed(l.queries, l.run.pinned));
    } else if l.run.state.Retrieving? {
      assert Initialize(env, db, l.run, l.queries) == (after, Dispatch(db.state, l.queries, l.run.pinned));
    } else {
      assert Initialize(env, db, l.run, l.queries) == (db, Opening(l.run.state, l.queries));
    }
  }

  lemma EnterIsSolo(env: Env, db: Db, l: Local, selected: Queries)
    requires l.Progressed? && SoloDb(env, db, selected) && SoloLocal(db, l)
    ensures SoloDb(env, Continue(env, db, l).0, selected) && SoloLocal(Continue(env, db, l).0, Continue(env, db, l).1)
    ensures Continue(env, db, l).1.Raised? ==> db.state.Cancelled?
    ensures !Continue(env, db, l).1.Idle?
  {}

  lemma MoveIsSolo(env: Env, db: Db, from: RunState, target: RunState, queries: Queries, selected: Queries)
    requires Current(db, from) && target in NextStates(from)
            && target in {RunState.Generating, RunState.Judging, Scoring}
    requires SoloDb(env, db, selected)
    ensures SoloDb(env, MoveTo(db, target, queries).0, selected)
    ensures SoloLocal(MoveTo(db, target, queries).0, MoveTo(db, target, queries).1)
    ensures MoveTo(db, target, queries).1.Raised? ==> db.state.Cancelled?
    ensures !MoveTo(db, target, queries).1.Idle?
  {}

  // ---- Generation and judge steps ----

  lemma OpenWorkIsSolo(env: Env, db: Db, state: RunState, dataset: Queries, selected: Queries)
    requires Frozen(env, dataset, selected) && Selectable(env, selected) && Vouched(env, db, state)
            && Current(db, state)
    requires GenerationQueries(env, selected).Ok? && state in {RunState.Generating, RunState.Judging}
    ensures Open(env, db, state, selected).0 == db
    ensures SoloLocal(db, Open(env, db, state, selected).1)
    ensures !Open(env, db, state, selected).1.Raised? && !Open(env, db, state, selected).1.Idle?
  {
    SnapshotIsComplete(env, db, dataset, selected);
    assert AnswersCurrent(db, db.rows, AnswerWork(env, selected));
    assert VerdictsCurrent(db, db.rows, AnswerWork(env, selected));
    OpenedWork(env, db, state, selected);
  }

  lemma OpenScoringIsSolo(env: Env, db: Db, selected: Queries)
    requires Current(db, Scoring) && SoloDb(env, db, selected) && GenerationQueries(env, selected).Ok?
    ensures SoloDb(env, Open(env, db, Scoring, selected).0, selected)
    ensures Open(env, db, Scoring, selected).1.Raised? || Open(env, db, Scoring, selected).1.Idle?
    ensures Open(env, db, Scoring, selected).1.Raised? ==> db.state.Cancelled?
    ensures Open(env, db, Scoring, selected).1.Idle? ==> Open(env, db, Scoring, selected).0.state == Completed
  {}

  lemma OpenIsSolo(env: Env, db: Db, l: Local, dataset: Queries, selected: Queries)
    requires Frozen(env, dataset, selected) && LocalInvariant(env, db, l) && l.Opening? && l.queries == selected
    requires SoloDb(env, db, selected) && SoloLocal(db, l)
    ensures SoloStep(env, db, Open(env, db, l.state, selected).0, Open(env, db, l.state, selected).1, selected)
  {
    if GenerationQueries(env, selected).Err? {
      assert Open(env, db, l.state, selected) == (db, Raised);
    } else if l.state in {RunState.Generating, RunState.Judging} {
      OpenWorkIsSolo(env, db, l.state, dataset, selected);
    } else if l.state == Scoring {
      OpenScoringIsSolo(env, db, selected);
    } else {
      assert Open(env, db, l.state, selected) == (db, Idle);
    }
  }

  lemma OpenedWork(env: Env, db: Db, state: RunState, queries: Queries)
    requires GenerationQueries(env, queries).Ok? && state in {RunState.Generating, RunState.Judging}
    ensures Open(env, db, state, queries)
         == (db, if state.Generating? then InGeneration(queries, db.rows, AnswerWork(env, queries))
                 else InJudging(queries, db.rows, AnswerWork(env, queries)))
  {}

  lemma TailCurrent(db: Db, persisted: map<Work, ResultRow>, work: seq<Work>)
    requires work != []
    ensures AnswersCurrent(db, persisted, work) ==> AnswersCurrent(db, persisted, work[1..])
    ensures VerdictsCurrent(db, persisted, work) ==> VerdictsCurrent(db, persisted, work[1..])
  {
    assert forall w <- work[1..] :: w in work;
  }

  lemma GenerateIsSolo(env: Env, db: Db, l: Local, selected: Queries)
    requires l.InGeneration? && SoloDb(env, db, selected) && SoloLocal(db, l)
    ensures SoloStep(env, db, Generate(env, db, l).0, Generate(env, db, l).1, selected)
  {
    if l.work == [] {
      MoveIsSolo(env, db, RunState.Generating, AfterGeneration(env.spec), l.queries, selected);
    } else if l.persisted[l.work[0]].answer.Some? {
      TailCurrent(db, l.persisted, l.work);
      assert Generate(env, db, l) == (db, InGeneration(l.queries, l.persisted, l.work[1..]));
    } else if db.state.Cancelled? {
      assert Generate(env, db, l) == (db, Idle);
    } else {
      assert Generate(env, db, l) == (db, Asking(l.queries, l.persisted, l.work));
    }
  }

  lemma OtherRowsCurrent(before: Db, after: Db, persisted: map<Work, ResultRow>, work: seq<Work>, row: ResultRow)
    requires work != [] && work[0] !in work[1..] && after.rows == before.rows[work[0] := row]
    ensures AnswersCurrent(before, persisted, work) ==> AnswersCurrent(after, persisted, work[1..])
    ensures VerdictsCurrent(before, persisted, work) ==> VerdictsCurrent(after, persisted, work[1..])
  {
    assert forall w <- work[1..] :: w in work && w != work[0];
  }

  lemma KeysUpdated(rows: map<Work, ResultRow>, work: Work, row: ResultRow)
    requires work in rows
    ensures rows[work := row].Keys == rows.Keys
  {}

  lemma StoreAnswerIsSolo(env: Env, db: Db, l: Local, selected: Queries)
    requires l.Drafted? && l.work != [] && l.work[0] !in l.work[1..]
    requires SoloDb(env, db, selected) && SoloLocal(db, l)
    ensures SoloDb(env, StoreAnswer(db, l).0, selected)
    ensures SoloLocal(StoreAnswer(db, l).0, StoreAnswer(db, l).1) && StoreAnswer(db, l).1.InGeneration?
  {
    var row := AnswerRow(db.rows[l.work[0]], l.answer, AnswerScores(l.metrics), l.goldLabel);
    var after := db.(rows := db.rows[l.work[0] := row]);
    OtherRowsCurrent(db, after, l.persisted, l.work, row);
    KeysUpdated(db.rows, l.work[0], row);
    assert StoreAnswer(db, l) == (after, InGeneration(l.queries, l.persisted, l.work[1..]));
  }

  lemma JudgeNextIsSolo(env: Env, db: Db, l: Local, selected: Queries)
    requires l.InJudging? && SoloDb(env, db, selected) && SoloLocal(db, l)
    requires l.work != [] ==> HasAnswer(l.persisted, l.work[0])
    ensures SoloDb(env, JudgeNext(env, db, l).0, selected)
    ensures SoloLocal(JudgeNext(env, db, l).0, JudgeNext(env, db, l).1)
    ensures JudgeNext(env, db, l).1.Raised? ==> db.state.Cancelled?
    ensures !JudgeNext(env, db, l).1.Idle?
  {
    if l.work == [] {
      MoveIsSolo(env, db, RunState.Judging, Scoring, l.queries, selected);
    } else {
      TailCurrent(db, l.persisted, l.work);
    }
  }

  lemma StoreVerdictsIsSolo(env: Env, db: Db, l: Local, selected: Queries)
    requires l.Judged? && l.work != [] && l.work[0] !in l.work[1..]
    requires SoloDb(env, db, selected) && SoloLocal(db, l)
    ensures SoloDb(env, StoreVerdicts(db, l).0, selected)
    ensures SoloLocal(StoreVerdicts(db, l).0, StoreVerdicts(db, l).1) && StoreVerdicts(db, l).1.InJudging?
  {
    var row := JudgeAll(db.rows[l.work[0]], l.verdicts);
    var after := db.(rows := db.rows[l.work[0] := row]);
    OtherRowsCurrent(db, after, l.persisted, l.work, row);
    KeysUpdated(db.rows, l.work[0], row);
    assert StoreVerdicts(db, l) == (after, InJudging(l.queries, l.persisted, l.work[1..]));
  }

  lemma HeadsAreDistinct(env: Env, db: Db, l: Local, dataset: Queries, selected: Queries)
    requires Frozen(env, dataset, selected) && LocalInvariant(env, db, l)
    requires (l.Drafted? || l.Judged?) && l.work != []
    ensures l.work[0] !in l.work[1..]
  {
    OnlySelection(env, dataset, selected, l.queries);
    AnswerWorkDistinct(env, dataset, selected);
    ListedOnce(AnswerWork(env, selected), l.work);
  }

  // ---- One step, whatever it is ----

  lemma OpeningSteps(env: Env, db: Db, l: Local, dataset: Queries, selected: Queries)
    requires Frozen(env, dataset, selected) && DbInvariant(env, db) && LocalInvariant(env, db, l)
    requires SoloDb(env, db, selected) && SoloLocal(db, l)
    requires l.Fetched? || l.Prepared? || l.Planned? || l.Progressed? || l.Entering? || l.Closing?
    ensures SoloStep(env, db, Continue(env, db, l).0, Continue(env, db, l).1, selected)
  {
    match l
    case Fetched(run) => PrepareIsSolo(env, db, run, selected);
    case Prepared(_) =>
    case Planned(_, _) => InitializeIsSolo(env, db, l, dataset, selected);
    case Progressed(_, _) => EnterIsSolo(env, db, l, selected);
    case Entering(queries, _) => SnapshotIsSolo(env, db, queries);
    case Closing(queries) => MoveIsSolo(env, db, RunState.Retrieving, AfterRetrieval(env.spec), queries, selected);
  }

  lemma RetrievalSteps(env: Env, db: Db, l: Local, dataset: Queries, selected: Queries)
    requires Frozen(env, dataset, selected) && DbInvariant(env, db) && LocalInvariant(env, db, l)
    requires SoloDb(env, db, selected) && SoloLocal(db, l)
    requires l.InRetrieval? || l.Found? || l.Stamped?
    ensures SoloStep(env, db, Continue(env, db, l).0, Continue(env, db, l).1, selected)
  {
    if l.InRetrieval? {
      RetrievedIsSolo(env, db, l);
    } else if l.Found? {
      PinIsSolo(env, db, l, selected);
    } else {
      StoreIsSolo(env, db, l, dataset, selected);
    }
  }

  lemma GenerationSteps(env: Env, db: Db, l: Local, dataset: Queries, selected: Queries)
    requires Frozen(env, dataset, selected) && LocalInvariant(env, db, l)
    requires SoloDb(env, db, selected) && SoloLocal(db, l)
    requires l.Opening? || l.InGeneration? || l.Asking? || l.Drafted?
    ensures SoloStep(env, db, Continue(env, db, l).0, Continue(env, db, l).1, selected)
  {
    match l
    case Opening(_, _) =>
      OnlySelection(env, dataset, selected, l.queries);
      OpenIsSolo(env, db, l, dataset, selected);
    case InGeneration(_, _, _) => GenerateIsSolo(env, db, l, selected);
    case Asking(_, _, _) =>
    case Drafted(_, _, _, _, _, _) =>
      HeadsAreDistinct(env, db, l, dataset, selected);
      StoreAnswerIsSolo(env, db, l, selected);
  }

  lemma JudgeSteps(env: Env, db: Db, l: Local, dataset: Queries, selected: Queries)
    requires Frozen(env, dataset, selected) && LocalInvariant(env, db, l) && NoGaps(env, l)
    requires SoloDb(env, db, selected) && SoloLocal(db, l) && (l.InJudging? || l.Judged?)
    ensures SoloStep(env, db, Continue(env, db, l).0, Continue(env, db, l).1, selected)
  {
    if l.InJudging? {
      if l.work != [] { HeadIsListed(env, db, l); }
      JudgeNextIsSolo(env, db, l, selected);
    } else {
      HeadsAreDistinct(env, db, l, dataset, selected);
      StoreVerdictsIsSolo(env, db, l, selected);
    }
  }

  predicate InRun(l: Local) {
    !l.Idle? && !l.Raised? && !l.MarkingFailed?
  }

  lemma ContinueIsSolo(env: Env, db: Db, l: Local, dataset: Queries, selected: Queries)
    requires Frozen(env, dataset, selected) && DbInvariant(env, db) && LocalInvariant(env, db, l) && NoGaps(env, l)
    requires SoloDb(env, db, selected) && SoloLocal(db, l) && InRun(l)
    ensures SoloStep(env, db, Continue(env, db, l).0, Continue(env, db, l).1, selected)
  {
    if l.InRetrieval? || l.Found? || l.Stamped? {
      RetrievalSteps(env, db, l, dataset, selected);
    } else if l.Opening? || l.InGeneration? || l.Asking? || l.Drafted? {
      GenerationSteps(env, db, l, dataset, selected);
    } else if l.InJudging? || l.Judged? {
      JudgeSteps(env, db, l, dataset, selected);
    } else {
      OpeningSteps(env, db, l, dataset, selected);
    }
  }

  lemma OutOfRunIsSolo(env: Env, db: Db, l: Local, selected: Queries)
    requires SoloDb(env, db, selected) && !InRun(l)
    ensures SoloDb(env, Continue(env, db, l).0, selected) && SoloLocal(Continue(env, db, l).0, Continue(env, db, l).1)
  {}

  lemma OutsideIsSolo(env: Env, db: Db, l: Local, action: Action)
    requires LocalInvariant(env, db, l) && SoloLocal(db, l) && !action.Proceed?
    ensures Next(env, db, l, action).0 == db && SoloLocal(db, Next(env, db, l, action).1)
  {
    if action.Retrieve? && l.InRetrieval? && l.todo != [] && l.todo[0].Search? && l.todo[0].work !in l.done {
      ReceiveIsSolo(env, db, l, action.response);
    } else if action.Judge? && AsksMissing(env, l, action.verdicts) {
      assert Next(env, db, l, action).1 == Judged(l.queries, l.persisted, l.work, action.verdicts);
    }
  }

  lemma AttemptIsSolo(env: Env, db: Db, l: Local, target: RunState, selected: Queries)
    requires SoloDb(env, db, selected) && SoloLocal(db, l) && target in {RunState.Queued, RunState.Cancelled}
    ensures SoloDb(env, Attempt(db, target), selected) && SoloLocal(Attempt(db, target), l)
  {
    if target.Queued? { EnqueueIsSolo(db, l); } else { CancelIsSolo(db, l); }
  }

  lemma EnqueueIsSolo(db: Db, l: Local)
    requires SoloLocal(db, l)
    ensures SoloLocal(Attempt(db, RunState.Queued), l)
  {
    if db.state.Created? {
      assert !l.Opening?;
    } else {
      assert Attempt(db, RunState.Queued) == db;
    }
  }

  lemma CancelIsSolo(db: Db, l: Local)
    requires SoloLocal(db, l)
    ensures SoloLocal(Attempt(db, RunState.Cancelled), l)
  {
    if db.state.Terminal() {
      assert Attempt(db, RunState.Cancelled) == db;
    } else {
      CancelledIsCurrent(db, l);
    }
  }

  lemma CancelledIsCurrent(db: Db, l: Local)
    requires SoloLocal(db, l)
    ensures SoloLocal(db.(state := RunState.Cancelled), l)
  {}

  lemma ApplyIsSolo(env: Env, world: World, event: Event, dataset: Queries, selected: Queries)
    requires Frozen(env, dataset, selected) && Sound(env, world) && NoGaps(env, world.At(ALONE))
    requires SoloSound(env, world, selected) && (event.Step? ==> event.runner == ALONE)
    ensures SoloSound(env, Apply(env, world, event), selected)
  {
    var l := world.At(ALONE);
    match event
    case Enqueue => AttemptIsSolo(env, world.db, l, RunState.Queued, selected);
    case Cancel => AttemptIsSolo(env, world.db, l, RunState.Cancelled, selected);
    case Step(_, action) =>
      if !action.Proceed? {
        OutsideIsSolo(env, world.db, l, action);
      } else if InRun(l) {
        ContinueIsSolo(env, world.db, l, dataset, selected);
      } else {
        OutOfRunIsSolo(env, world.db, l, selected);
      }
  }

  lemma {:induction false} SoloHistories(env: Env, events: seq<Event>, dataset: Queries, selected: Queries)
    requires Frozen(env, dataset, selected) && Possible(env, events) && Solo(events)
    ensures SoloSound(env, Execute(env, events), selected)
  {
    if events != [] {
      var last := |events| - 1;
      SoloHistories(env, events[..last], dataset, selected);
      EveryHistoryIsSound(env, events[..last]);
      HistoriesLeaveNoGaps(env, events[..last], dataset, ALONE);
      assert events[last] in events;
      ApplyIsSolo(env, Execute(env, events[..last]), events[last], dataset, selected);
    }
  }

  // ---- Theorems ----

  /** Some history of one runner at a time leads to this world. */
  ghost predicate SoloReachable(env: Env, world: World) {
    exists events :: Possible(env, events) && Solo(events) && Execute(env, events) == world
  }

  lemma SoloReachableIsSound(env: Env, world: World, dataset: Queries, selected: Queries)
    requires Frozen(env, dataset, selected) && SoloReachable(env, world)
    ensures SoloSound(env, world, selected) && Sound(env, world) && NoGaps(env, world.At(ALONE))
  {
    var events :| Possible(env, events) && Solo(events) && Execute(env, events) == world;
    SoloHistories(env, events, dataset, selected);
    EveryHistoryIsSound(env, events);
    HistoriesLeaveNoGaps(env, events, dataset, ALONE);
  }

  lemma SoloStanding(env: Env, world: World, dataset: Queries, selected: Queries)
    requires Frozen(env, dataset, selected) && SoloReachable(env, world)
    ensures SoloLocal(world.db, world.At(ALONE))
  {
    SoloReachableIsSound(env, world, dataset, selected);
  }

  lemma NextSearchIsNew(db: Db, l: Local)
    requires SoloLocal(db, l) && l.InRetrieval? && l.todo != [] && l.todo[0].Search? && l.todo[0].work !in l.done
    ensures l.todo[0].work !in db.rows
  {
    assert Search(l.todo[0].work) in l.todo;
  }

  lemma NextQuestionIsNew(db: Db, l: Local)
    requires SoloLocal(db, l) && l.Asking?
    ensures l.work != [] && l.work[0] in db.rows && db.rows[l.work[0]].answer.None?
  {
    assert l.work[0] in l.work;
  }

  lemma NextProfilesAreNew(env: Env, db: Db, l: Local, verdicts: seq<JudgeRecord>)
    requires SoloLocal(db, l) && AsksMissing(env, l, verdicts)
    ensures l.work[0] in db.rows && Profiles(verdicts) !! Profiles(db.rows[l.work[0]].judgeRecords)
  {
    assert l.work[0] in l.work;
  }

  /** Work already committed is never searched again, however often the run was interrupted. */
  lemma CommittedWorkIsNotSearchedAgain(env: Env, world: World, dataset: Queries, selected: Queries)
    requires Frozen(env, dataset, selected) && SoloReachable(env, world)
    requires world.At(ALONE).InRetrieval? && world.At(ALONE).todo != [] && world.At(ALONE).todo[0].Search?
    requires world.At(ALONE).todo[0].work !in world.At(ALONE).done
    ensures world.At(ALONE).todo[0].work !in world.db.rows
  {
    SoloStanding(env, world, dataset, selected);
    NextSearchIsNew(world.db, world.At(ALONE));
  }

  /** No question is put to the answer service whose answer is already stored. */
  lemma StoredAnswersAreNotAskedAgain(env: Env, world: World, dataset: Queries, selected: Queries)
    requires Frozen(env, dataset, selected) && SoloReachable(env, world) && world.At(ALONE).Asking?
    ensures var work := world.At(ALONE).work;
            work != [] && work[0] in world.db.rows && world.db.rows[work[0]].answer.None?
  {
    SoloStanding(env, world, dataset, selected);
    NextQuestionIsNew(world.db, world.At(ALONE));
  }

  /** No judge profile is asked about a row that already carries its verdict. */
  lemma StoredVerdictsAreNotAskedAgain(env: Env, world: World, dataset: Queries, selected: Queries,
                                       verdicts: seq<JudgeRecord>)
    requires Frozen(env, dataset, selected) && SoloReachable(env, world)
    requires AsksMissing(env, world.At(ALONE), verdicts)
    ensures var work := world.At(ALONE).work[0];
            work in world.db.rows && Profiles(verdicts) !! Profiles(world.db.rows[work].judgeRecords)
  {
    SoloStanding(env, world, dataset, selected);
    NextProfilesAreNew(env, world.db, world.At(ALONE), verdicts);
  }

  /**
   * None of the run's own consistency checks ever fails. A step inside the run raises only because the run was
   * cancelled or more answers were asked for than queries were selected, and the run only returns once it is
   * completed or cancelled.
   */
  lemma ConsistencyChecksNeverFail(env: Env, world: World, dataset: Queries, selected: Queries)
    requires Frozen(env, dataset, selected) && SoloReachable(env, world) && InRun(world.At(ALONE))
    ensures Continue(env, world.db, world.At(ALONE)).1.Raised? ==>
              world.db.state.Cancelled? || GenerationQueries(env, selected).Err?
    ensures Continue(env, world.db, world.At(ALONE)).1.Idle? ==>
              Continue(env, world.db, world.At(ALONE)).0.state in {Completed, RunState.Cancelled}
  {
    SoloReachableIsSound(env, world, dataset, selected);
    ContinueIsSolo(env, world.db, world.At(ALONE), dataset, selected);
  }
}
