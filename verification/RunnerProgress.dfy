/** A run that nothing interrupts comes to an end, after a number of steps that is known beforehand. */
module RunnerProgress {
  import opened Prelude
  import opened EvaluationContract
  import opened EvaluationStore
  import opened EvaluationPlan
  import opened EvaluationRunner
  import opened RunnerHistory
  import opened RunnerCancellation
  import opened RunnerSafety
  import opened RunnerSolo

  /** A runner that works on the selection. */
  predicate WorksOn(l: Local, selected: Queries) {
    match l
    case Idle => true
    case Raised => true
    case MarkingFailed => true
    case Fetched(_) => true
    case Prepared(_) => true
    case _ => l.queries == selected
  }

  /** The work items that answers are asked for, and the instructions of the retrieval loop. */
  function Answers(env: Env, selected: Queries): nat { |AnswerWork(env, selected)| }

  function Searches(env: Env, selected: Queries): nat { |Program(selected, env.spec.variants)| }

  /** How many steps a runner is from the end of its run, at most. */
  function Distance(env: Env, l: Local, selected: Queries): nat {
    var a, p := Answers(env, selected), Searches(env, selected);
    match l
    case Idle => 0
    case Raised => 0
    case MarkingFailed => 0
    case Fetched(_) => 3 * p + 5 * a + 12
    case Prepared(_) => 3 * p + 5 * a + 11
    case Planned(_, _) => 3 * p + 5 * a + 10
    case Progressed(_, _) => 3 * p + 5 * a + 9
    case Entering(_, _) => 3 * p + 5 * a + 8
    case InRetrieval(_, _, _, todo) => 3 * |todo| + 5 * a + 7
    case Found(_, _, _, todo, _) => 3 * |todo| + 5 * a + 6
    case Stamped(_, _, _, todo, _) => 3 * |todo| + 5 * a + 5
    case Closing(_) => 5 * a + 6
    case Opening(state, _) => if state.Generating? then 5 * a + 5 else if state.Judging? then 2 * a + 3 else 1
    case InGeneration(_, _, work) => 3 * |work| + 2 * a + 4
    case Asking(_, _, work) => 3 * |work| + 2 * a + 3
    case Drafted(_, _, work, _, _, _) => 3 * |work| + 2 * a + 2
    case InJudging(_, _, work) => 2 * |work| + 2
    case Judged(_, _, work, _) => 2 * |work| + 1
  }

  /** The runner has stopped, stands still, or is nearer to the end. */
  predicate Nearer(env: Env, l: Local, next: Local, selected: Queries) {
    WorksOn(next, selected) && (InRun(next) ==> next == l || Distance(env, next, selected) < Distance(env, l, selected))
  }

  lemma PrepareIsNearer(env: Env, db: Db, run: RunView, selected: Queries)
    ensures Nearer(env, Fetched(run), Prepare(db, run).1, selected)
  {}

  lemma DispatchIsNearer(env: Env, state: RunState, pinned: map<Variant, Fingerprint>, selected: Queries)
    ensures WorksOn(Dispatch(state, selected, pinned), selected)
    ensures Distance(env, Dispatch(state, selected, pinned), selected)
         <= 3 * Searches(env, selected) + 5 * Answers(env, selected) + 8
  {}

  lemma InitializeIsNearer(env: Env, db: Db, run: RunView, selected: Queries)
    ensures Nearer(env, Planned(run, selected), Initialize(env, db, run, selected).1, selected)
  {
    var progress := AfterProgress(db, run.completed, TotalWork(env, selected));
    DispatchIsNearer(env, run.state, run.pinned, selected);
    if progress.Ok? { DispatchIsNearer(env, progress.value.state, run.pinned, selected); }
  }

  lemma RetrievalIsNearer(env: Env, db: Db, l: Local, selected: Queries)
    requires WorksOn(l, selected) && (l.Progressed? || l.Entering? || l.InRetrieval? || l.Closing?)
    ensures Nearer(env, l, Continue(env, db, l).1, selected)
  {}

  lemma SearchIsNearer(env: Env, db: Db, l: Local, selected: Queries)
    requires WorksOn(l, selected) && (l.Found? || l.Stamped?)
    ensures Nearer(env, l, Continue(env, db, l).1, selected)
  {}

  lemma OpenIsNearer(env: Env, db: Db, state: RunState, selected: Queries)
    ensures Nearer(env, Opening(state, selected), Open(env, db, state, selected).1, selected)
  {}

  lemma MoveOpens(db: Db, target: RunState, queries: Queries)
    ensures MoveTo(db, target, queries).1 == if AfterState(db, target).Ok? then Opening(target, queries) else Raised
  {}

  lemma GenerationEndIsNearer(env: Env, db: Db, l: Local, selected: Queries)
    requires WorksOn(l, selected) && l.InGeneration?
    ensures Nearer(env, l, MoveTo(db, AfterGeneration(env.spec), selected).1, selected)
  {
    MoveOpens(db, AfterGeneration(env.spec), selected);
  }

  lemma SkipIsNearer(env: Env, l: Local, selected: Queries)
    requires WorksOn(l, selected) && l.InGeneration? && l.work != []
    ensures Nearer(env, l, InGeneration(l.queries, l.persisted, l.work[1..]), selected)
  {}

  lemma AskIsNearer(env: Env, l: Local, selected: Queries)
    requires WorksOn(l, selected) && l.InGeneration?
    ensures Nearer(env, l, Asking(l.queries, l.persisted, l.work), selected)
  {}

  lemma StopIsNearer(env: Env, l: Local, selected: Queries)
    ensures Nearer(env, l, Idle, selected) && Nearer(env, l, Raised, selected)
  {}

  /** The generation loop ends, skips an item that is answered, asks for an answer, or stops. */
  lemma GenerateResults(env: Env, db: Db, l: Local)
    requires l.InGeneration? && l.work != []
    ensures Generate(env, db, l).1 in {Raised, Idle, Asking(l.queries, l.persisted, l.work),
                                       InGeneration(l.queries, l.persisted, l.work[1..])}
  {}

  lemma GenerateIsNearer(env: Env, db: Db, l: Local, selected: Queries)
    requires WorksOn(l, selected) && l.InGeneration?
    ensures Nearer(env, l, Generate(env, db, l).1, selected)
  {
    if l.work == [] {
      GenerationEndIsNearer(env, db, l, selected);
    } else {
      SkipIsNearer(env, l, selected);
      AskIsNearer(env, l, selected);
      StopIsNearer(env, l, selected);
      GenerateResults(env, db, l);
    }
  }

  lemma GenerationIsNearer(env: Env, db: Db, l: Local, selected: Queries)
    requires WorksOn(l, selected) && (l.Asking? || l.Drafted?)
    ensures Nearer(env, l, Continue(env, db, l).1, selected)
  {}

  lemma JudgingIsNearer(env: Env, db: Db, l: Local, selected: Queries)
    requires WorksOn(l, selected) && (l.InJudging? || l.Judged?)
    ensures Nearer(env, l, Continue(env, db, l).1, selected)
  {}

  lemma ContinueIsNearer(env: Env, db: Db, l: Local, selected: Queries)
    requires WorksOn(l, selected) && InRun(l)
    ensures Nearer(env, l, Continue(env, db, l).1, selected)
  {
    match l
    case Fetched(run) => PrepareIsNearer(env, db, run, selected);
    case Prepared(_) =>
    case Planned(run, _) => InitializeIsNearer(env, db, run, selected);
    case Opening(state, _) => OpenIsNearer(env, db, state, selected);
    case Found(_, _, _, _, _) => SearchIsNearer(env, db, l, selected);
    case Stamped(_, _, _, _, _) => SearchIsNearer(env, db, l, selected);
    case InGeneration(_, _, _) => GenerateIsNearer(env, db, l, selected);
    case Asking(_, _, _) => GenerationIsNearer(env, db, l, selected);
    case Drafted(_, _, _, _, _, _) => GenerationIsNearer(env, db, l, selected);
    case InJudging(_, _, _) => JudgingIsNearer(env, db, l, selected);
    case Judged(_, _, _, _) => JudgingIsNearer(env, db, l, selected);
    case _ => RetrievalIsNearer(env, db, l, selected);
  }

  lemma OutsideIsNearer(env: Env, db: Db, l: Local, action: Action, dataset: Queries, selected: Queries)
    requires Select(env, dataset) == Ok(selected) && WorksOn(l, selected) && InRun(l) && !action.Proceed?
    requires action.Load? ==> action.dataset == dataset
    ensures Nearer(env, l, Next(env, db, l, action).1, selected)
  {}

  lemma StepIsNearer(env: Env, db: Db, l: Local, action: Action, dataset: Queries, selected: Queries)
    requires Select(env, dataset) == Ok(selected) && WorksOn(l, selected) && InRun(l)
    requires action.Load? ==> action.dataset == dataset
    ensures Nearer(env, l, Next(env, db, l, action).1, selected)
  {
    if action.Proceed? {
      ContinueIsNearer(env, db, l, selected);
    } else {
      OutsideIsNearer(env, db, l, action, dataset, selected);
    }
  }

  // ---- Nothing but a reply is ever waited for ----

  /** The runner waits for the dataset, a search, an answer, or the verdicts of the profiles a judgeable row lacks. */
  predicate AwaitsReply(env: Env, l: Local) {
    match l
    case Prepared(_) => true
    case Asking(_, _, _) => true
    case InRetrieval(_, _, _, _) => AwaitsSearch(l)
    case InJudging(_, _, _) => AwaitsVerdicts(env, l)
    case _ => false
  }

  /** A search is in hand only while its work is at the head of the loop, and so for answers and verdicts. */
  predicate InPlace(l: Local) {
    match l
    case Found(_, _, _, todo, _) => todo != [] && todo[0].Search?
    case Stamped(_, _, _, todo, _) => todo != [] && todo[0].Search?
    case Drafted(_, _, work, _, _, _) => work != []
    case Judged(_, _, work, _) => work != []
    case _ => true
  }

  lemma InvariantPlaces(env: Env, db: Db, l: Local)
    requires LocalInvariant(env, db, l)
    ensures InPlace(l)
  {}

  lemma PlanningMoves(env: Env, db: Db, l: Local)
    requires l.Fetched? || l.Planned? || l.Progressed? || l.Entering? || l.Closing? || l.Opening?
    ensures Continue(env, db, l).1 != l
  {}

  lemma SearchingMoves(env: Env, db: Db, l: Local)
    requires (l.Found? || l.Stamped?) && InPlace(l)
    ensures Continue(env, db, l).1 != l
  {}

  lemma StoringMoves(env: Env, db: Db, l: Local)
    requires (l.Drafted? || l.Judged?) && InPlace(l)
    ensures Continue(env, db, l).1 != l
  {}

  lemma RetrievalMoves(env: Env, db: Db, l: Local)
    requires l.InRetrieval?
    ensures Retrieved(env, db, l) == l <==> AwaitsReply(env, l)
  {
    if l.todo != [] { assert |l.todo[1..]| < |l.todo|; }
  }

  lemma GenerationMoves(env: Env, db: Db, l: Local)
    requires l.InGeneration?
    ensures Generate(env, db, l).1 != l
  {
    if l.work != [] {
      GenerateResults(env, db, l);
      assert |l.work[1..]| < |l.work|;
    }
  }

  lemma JudgingMoves(env: Env, db: Db, l: Local)
    requires l.InJudging?
    ensures JudgeNext(env, db, l).1 == l <==> AwaitsReply(env, l)
  {
    if l.work != [] { assert |l.work[1..]| < |l.work|; }
  }

  lemma MovesOrAwaits(env: Env, db: Db, l: Local)
    requires InRun(l) && InPlace(l)
    ensures Continue(env, db, l).1 == l <==> AwaitsReply(env, l)
  {
    match l
    case Prepared(_) =>
    case Asking(_, _, _) =>
    case InRetrieval(_, _, _, _) => RetrievalMoves(env, db, l);
    case InGeneration(_, _, _) => GenerationMoves(env, db, l);
    case InJudging(_, _, _) => JudgingMoves(env, db, l);
    case Found(_, _, _, _, _) => SearchingMoves(env, db, l);
    case Stamped(_, _, _, _, _) => SearchingMoves(env, db, l);
    case Drafted(_, _, _, _, _, _) => StoringMoves(env, db, l);
    case Judged(_, _, _, _) => StoringMoves(env, db, l);
    case _ => PlanningMoves(env, db, l);
  }

  /** Wherever a runner stands in a reachable world, it can take a step of its own exactly when it awaits no reply. */
  lemma MovesOrAwaitsReply(env: Env, world: World, r: RunnerId)
    requires ValidEnv(env) && Reachable(env, world) && InRun(world.At(r))
    ensures Continue(env, world.db, world.At(r)).1 == world.At(r) <==> AwaitsReply(env, world.At(r))
  {
    ReachableIsSound(env, world);
    assert LocalInvariant(env, world.db, world.At(r));
    InvariantPlaces(env, world.db, world.At(r));
    MovesOrAwaits(env, world.db, world.At(r));
  }

  // ---- Whole stretches ----

  /**
   * A stretch of a run: a runner takes effective steps, one after another, that neither end nor raise; between them
   * anything may happen to the tables.
   */
  ghost predicate Stretch(env: Env, dbs: seq<Db>, actions: seq<Action>, locals: seq<Local>, dataset: Queries) {
    && |locals| == |actions| + 1 && |dbs| == |actions|
    && (forall i :: 0 <= i < |locals| ==> InRun(locals[i]))
    && (forall i :: 0 <= i < |actions| ==>
          && (actions[i].Load? ==> actions[i].dataset == dataset)
          && locals[i + 1] == Next(env, dbs[i], locals[i], actions[i]).1 && locals[i + 1] != locals[i])
  }

  lemma {:induction false} StretchShrinks(env: Env, dbs: seq<Db>, actions: seq<Action>, locals: seq<Local>,
                                          dataset: Queries, selected: Queries, i: nat)
    requires Stretch(env, dbs, actions, locals, dataset) && Select(env, dataset) == Ok(selected)
    requires i < |locals| && WorksOn(locals[0], selected)
    ensures WorksOn(locals[i], selected)
    ensures Distance(env, locals[i], selected) + i <= Distance(env, locals[0], selected)
  {
    if i > 0 {
      StretchShrinks(env, dbs, actions, locals, dataset, selected, i - 1);
      StepIsNearer(env, dbs[i - 1], locals[i - 1], actions[i - 1], dataset, selected);
    }
  }

  /**
   * Wherever a restarted runner has to start, it reaches the end of its run within a number of effective steps that
   * only the selection determines: three for each instruction of the retrieval loop, five for each asked-for answer,
   * and twelve more.
   */
  lemma UninterruptedRunsEnd(env: Env, dbs: seq<Db>, actions: seq<Action>, locals: seq<Local>, dataset: Queries,
                             selected: Queries)
    requires Stretch(env, dbs, actions, locals, dataset) && Select(env, dataset) == Ok(selected)
    requires locals[0].Fetched?
    ensures |actions| <= 3 * Searches(env, selected) + 5 * Answers(env, selected) + 12
  {
    StretchShrinks(env, dbs, actions, locals, dataset, selected, |actions|);
  }
}
