/** A history in which a judge is asked for a verdict after the run was cancelled. */
module JudgedTooLate {
  import opened Prelude
  import opened GenerationContract
  import opened EvaluationContract
  import opened EvaluationStore
  import opened EvaluationPlan
  import opened Sampling
  import opened EvaluationRunner
  import opened RunnerHistory
  import opened RunnerCancellation
  import opened RunnerJudging
  import RetrievalMetrics

  // ---- The run: one query, one variant, one judge profile ----

  const SPEC := EvalRunSpec("d", "s", ["v"], None, None, [], 0, true, Some("g"), ["p"], Some("1"), Some("1"))
  const QUERY := EvaluationQuery(0, "q")
  const DATASET: Queries := [QUERY]
  const ENV := Env(SPEC, (seed, id) => 0, map["v" := "h"], {DATASET})
  const WORK := Work("q", "v")

  const RESPONSE := Response("h", "f", [], RetrievalMetrics.Scores(0.0, 0.0, 0.0, 0.0))
  const METRICS := AnswerMetrics(0.0, 0.0, 0.0, None)
  const ANSWER := AnswerResponse("a", [], true, None, [], NO_USAGE, Abstained, Provenance("", "", ""), "", false,
                                 Some(CitationValidation(true, [], [], [], false, false)), None)

  const PINS: map<Variant, Fingerprint> := map["v" := "f"]

  lemma TheEnvironmentIsValid()
    ensures ValidEnv(ENV)
  {
    assert ENV.variantHashes.Keys == {"v"} == ToSet(ENV.spec.variants);
  }

  lemma TheSelectionIsEverything()
    ensures Select(ENV, DATASET) == Ok(DATASET) && GenerationQueries(ENV, DATASET) == Ok(DATASET)
  {
    assert Sort(DATASET, ByExternalId) == DATASET;
  }

  lemma ThePlanIsOneItem()
    ensures Program(DATASET, ["v"]) == [CheckCancelled, Search(WORK)]
    ensures AnswerWork(ENV, DATASET) == [WORK]
    ensures TotalWork(ENV, DATASET) == 1
  {
    TheSelectionIsEverything();
    assert DATASET[1..] == [];
    assert Program(DATASET[1..], ["v"]) == [] && WorkList(DATASET[1..], ["v"]) == [];
  }

  // ---- Getting there ----

  ghost predicate Reaches(db: Db, l: Local) {
    exists world :: Reachable(ENV, world) && world.db == db && world.At(0) == l
  }

  lemma Happens(world: World, event: Event) returns (next: World)
    requires Reachable(ENV, world)
    requires event.Step? && event.action.Load? ==> event.action.dataset in ENV.versions
    ensures next == Apply(ENV, world, event) && Reachable(ENV, next)
  {
    next := Apply(ENV, world, event);
    var events :| Possible(ENV, events) && Execute(ENV, events) == world;
    var all := events + [event];
    assert all[..|all| - 1] == events;
    assert Execute(ENV, all) == next;
    assert Possible(ENV, all);
  }

  lemma Goes(db: Db, l: Local, action: Action, db': Db, l': Local)
    requires Reaches(db, l) && Next(ENV, db, l, action) == (db', l')
    requires action.Load? ==> action.dataset in ENV.versions
    ensures Reaches(db', l')
  {
    var world :| Reachable(ENV, world) && world.db == db && world.At(0) == l;
    var next := Happens(world, Step(0, action));
    assert next.db == db' && next.At(0) == l';
  }

  lemma Starts()
    ensures Reaches(Db(Queued, 0, 0, map[], map[]), Idle)
  {
    assert Possible(ENV, []) && Execute(ENV, []) == EMPTY_RUN;
    var next := Happens(EMPTY_RUN, Enqueue);
    assert next.db == Db(Queued, 0, 0, map[], map[]) && next.At(0) == Idle;
  }

  function NoRows(state: RunState): Db {
    Db(state, 0, 1, map[], map[])
  }

  function OneRow(state: RunState, row: ResultRow): Db {
    Db(state, 1, 1, PINS, map[WORK := row])
  }

  lemma Prepares()
    ensures Reaches(Db(Preparing, 0, 0, map[], map[]), Planned(RunView(Preparing, 0, map[]), DATASET))
  {
    var queued, preparing := Db(Queued, 0, 0, map[], map[]), Db(Preparing, 0, 0, map[], map[]);
    var run := View(preparing);
    Starts();
    Goes(queued, Idle, Proceed, queued, Fetched(View(queued)));
    Goes(queued, Fetched(View(queued)), Proceed, preparing, Prepared(run));
    TheSelectionIsEverything();
    Goes(preparing, Prepared(run), Load(DATASET, ENV.variantHashes), preparing, Planned(run, DATASET));
  }

  lemma EntersRetrieval()
    ensures Reaches(NoRows(Retrieving), Entering(DATASET, map[]))
  {
    var preparing, run := Db(Preparing, 0, 0, map[], map[]), RunView(Preparing, 0, map[]);
    Prepares();
    ThePlanIsOneItem();
    Goes(preparing, Planned(run, DATASET), Proceed, NoRows(Preparing), Progressed(DATASET, map[]));
    Goes(NoRows(Preparing), Progressed(DATASET, map[]), Proceed, NoRows(Retrieving), Entering(DATASET, map[]));
  }

  lemma StartsTheLoop()
    ensures Reaches(NoRows(Retrieving), InRetrieval(DATASET, map[], {}, [CheckCancelled, Search(WORK)]))
  {
    var db, todo := NoRows(Retrieving), [CheckCancelled, Search(WORK)];
    EntersRetrieval();
    ThePlanIsOneItem();
    assert db.rows.Keys == {};
    Goes(db, Entering(DATASET, map[]), Proceed, db, InRetrieval(DATASET, map[], {}, todo));
  }

  lemma LooksForCancellation()
    ensures Reaches(NoRows(Retrieving), InRetrieval(DATASET, map[], {}, [Search(WORK)]))
  {
    var db, todo := NoRows(Retrieving), [CheckCancelled, Search(WORK)];
    StartsTheLoop();
    assert todo[1..] == [Search(WORK)];
    assert Retrieved(ENV, db, InRetrieval(DATASET, map[], {}, todo)) == InRetrieval(DATASET, map[], {}, todo[1..]);
    Goes(db, InRetrieval(DATASET, map[], {}, todo), Proceed, db, InRetrieval(DATASET, map[], {}, todo[1..]));
  }

  lemma FindsItsResult()
    ensures Reaches(NoRows(Retrieving), Found(DATASET, map[], {}, [Search(WORK)], RESPONSE))
  {
    var db, todo := NoRows(Retrieving), [Search(WORK)];
    LooksForCancellation();
    assert Receive(ENV, InRetrieval(DATASET, map[], {}, todo), RESPONSE) == Found(DATASET, map[], {}, todo, RESPONSE);
    Goes(db, InRetrieval(DATASET, map[], {}, todo), Retrieve(RESPONSE), db, Found(DATASET, map[], {}, todo, RESPONSE));
  }

  lemma StoresItsResult() returns (found: ResultRow)
    ensures Reaches(OneRow(Retrieving, found), InRetrieval(DATASET, PINS, {}, []))
    ensures found.answer.None? && found.judgeRecords == []
  {
    var db, todo := NoRows(Retrieving), [Search(WORK)];
    var pinned := db.(indexFingerprints := PINS);
    found := NewRow(RESPONSE.ranking, RESPONSE.scores);
    FindsItsResult();
    Goes(db, Found(DATASET, map[], {}, todo, RESPONSE), Proceed, pinned, Stamped(DATASET, PINS, {}, todo, RESPONSE));
    var rows: map<Work, ResultRow> := map[];
    assert rows[WORK := found] == map[WORK := found] && |map[WORK := found]| == 1;
    assert AfterResult(pinned, WORK, found) == Ok(OneRow(Retrieving, found));
    assert todo[1..] == [];
    Goes(pinned, Stamped(DATASET, PINS, {}, todo, RESPONSE), Proceed,
         OneRow(Retrieving, found), InRetrieval(DATASET, PINS, {}, []));
  }

  lemma ClosesRetrieval() returns (found: ResultRow)
    ensures Reaches(OneRow(Retrieving, found), Closing(DATASET))
    ensures found.answer.None? && found.judgeRecords == []
  {
    found := StoresItsResult();
    var retrieving := OneRow(Retrieving, found);
    ThePlanIsOneItem();
    assert ToSet(SPEC.variants) - PINS.Keys == {};
    assert Retrieved(ENV, retrieving, InRetrieval(DATASET, PINS, {}, [])) == Closing(DATASET);
    Goes(retrieving, InRetrieval(DATASET, PINS, {}, []), Proceed, retrieving, Closing(DATASET));
  }

  lemma EntersGeneration() returns (found: ResultRow)
    ensures Reaches(OneRow(RunState.Generating, found), InGeneration(DATASET, map[WORK := found], [WORK]))
    ensures found.answer.None? && found.judgeRecords == []
  {
    found := ClosesRetrieval();
    var generating := OneRow(RunState.Generating, found);
    Goes(OneRow(Retrieving, found), Closing(DATASET), Proceed, generating, Opening(RunState.Generating, DATASET));
    TheSelectionIsEverything();
    ThePlanIsOneItem();
    Goes(generating, Opening(RunState.Generating, DATASET), Proceed,
         generating, InGeneration(DATASET, map[WORK := found], [WORK]));
  }

  lemma DraftsItsAnswer() returns (found: ResultRow)
    ensures Reaches(OneRow(RunState.Generating, found),
                    Drafted(DATASET, map[WORK := found], [WORK], ANSWER, METRICS, None))
    ensures found.answer.None? && found.judgeRecords == []
  {
    found := EntersGeneration();
    var db, rows := OneRow(RunState.Generating, found), map[WORK := found];
    Goes(db, InGeneration(DATASET, rows, [WORK]), Proceed, db, Asking(DATASET, rows, [WORK]));
    Goes(db, Asking(DATASET, rows, [WORK]), Answer(ANSWER, METRICS, None),
         db, Drafted(DATASET, rows, [WORK], ANSWER, METRICS, None));
  }

  lemma StoresItsAnswer() returns (found: ResultRow, row: ResultRow)
    ensures Reaches(OneRow(RunState.Generating, row), InGeneration(DATASET, map[WORK := found], []))
    ensures row.answer == Some(ANSWER) && row.judgeRecords == []
  {
    found := DraftsItsAnswer();
    row := AnswerRow(found, ANSWER, AnswerScores(METRICS), None);
    var db, rows := OneRow(RunState.Generating, found), map[WORK := found];
    assert rows[WORK := row] == map[WORK := row];
    assert [WORK][1..] == [];
    var l := Drafted(DATASET, rows, [WORK], ANSWER, METRICS, None);
    assert StoreAnswer(db, l) == (OneRow(RunState.Generating, row), InGeneration(DATASET, rows, []));
    Goes(db, l, Proceed, OneRow(RunState.Generating, row), InGeneration(DATASET, rows, []));
  }

  lemma EntersJudging() returns (row: ResultRow)
    ensures Reaches(OneRow(RunState.Judging, row), InJudging(DATASET, map[WORK := row], [WORK]))
    ensures row.answer == Some(ANSWER) && row.judgeRecords == []
  {
    var found: ResultRow;
    found, row := StoresItsAnswer();
    var generating, judging := OneRow(RunState.Generating, row), OneRow(RunState.Judging, row);
    TheSelectionIsEverything();
    ThePlanIsOneItem();
    Goes(generating, InGeneration(DATASET, map[WORK := found], []), Proceed,
         judging, Opening(RunState.Judging, DATASET));
    Goes(judging, Opening(RunState.Judging, DATASET), Proceed, judging, InJudging(DATASET, map[WORK := row], [WORK]));
  }

  lemma TheRowAwaitsAVerdict(row: ResultRow)
    requires row.answer == Some(ANSWER) && row.judgeRecords == []
    ensures AwaitsVerdicts(ENV, InJudging(DATASET, map[WORK := row], [WORK]))
  {
    assert "p" == SPEC.judgeProfiles[0] && Profiles(row.judgeRecords) == {};
    assert "p" in MissingProfiles(SPEC, row);
  }

  /** Cancelled in its judge stage, a run goes on to ask for the verdict it lacks. */
  lemma CancelledRunIsStillJudged()
    ensures ValidEnv(ENV)
    ensures exists world :: Reachable(ENV, world) && world.db.state.Cancelled? && CanStillAsk(ENV, world, 0)
  {
    TheEnvironmentIsValid();
    var row := EntersJudging();
    var l := InJudging(DATASET, map[WORK := row], [WORK]);
    var world := IsCancelled(OneRow(RunState.Judging, row), l);
    TheRowAwaitsAVerdict(row);
    AskNow(ENV, world, 0);
  }

  lemma IsCancelled(db: Db, l: Local) returns (world: World)
    requires Reaches(db, l) && !db.state.Terminal()
    ensures Reachable(ENV, world) && world.db.state.Cancelled? && world.At(0) == l
  {
    var before :| Reachable(ENV, before) && before.db == db && before.At(0) == l;
    world := Happens(before, Cancel);
  }
}
