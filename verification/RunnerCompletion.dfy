/** A run that is not cancelled, and whose providers reply, is completed. */
module RunnerCompletion {
  import opened Prelude
  import opened GenerationContract
  import opened EvaluationStore
  import opened EvaluationPlan
  import opened EvaluationRunner
  import opened RunnerSafety
  import opened RunnerHistory
  import opened RunnerCancellation
  import opened RunnerJudging
  import opened RunnerSolo
  import opened RunnerProgress
  import RetrievalMetrics

  // ---- Acceptable replies ----

  /** A search was made with the variant as the run configured it, and against the index pinned for it, if any is. */
  predicate AcceptableSearch(env: Env, l: Local, response: Response)
    requires AwaitsSearch(l)
  {
    var v := l.todo[0].work.variant;
    && v in env.variantHashes && response.variantHash == env.variantHashes[v]
    && (v in l.pinned ==> response.indexFingerprint == l.pinned[v])
  }

  /** What is awaited arrives: the dataset, an acceptable search, an answer, or the verdicts of the lacking profiles. */
  predicate Replies(env: Env, l: Local, action: Action, dataset: Queries) {
    if l.Prepared? then action == Load(dataset, env.variantHashes)
    else if l.Asking? then action.Answer?
    else if AwaitsSearch(l) then action.Retrieve? && AcceptableSearch(env, l, action.response)
    else action.Judge? && AsksMissing(env, l, action.verdicts)
  }

  /** The runner is replied to whenever it awaits something, and otherwise goes on by itself. */
  predicate Serves(env: Env, l: Local, action: Action, dataset: Queries) {
    if AwaitsReply(env, l) then Replies(env, l, action, dataset) else action.Proceed?
  }

  function After(env: Env, world: World, more: seq<Event>): World
    decreases |more|
  {
    if more == [] then world else After(env, Apply(env, world, more[0]), more[1..])
  }

  /** Until its run is over, the runner is served by every event. */
  predicate Served(env: Env, world: World, more: seq<Event>, dataset: Queries)
    decreases |more|
  {
    more != [] && InRun(world.At(ALONE)) ==>
      && more[0].Step? && more[0].runner == ALONE && Serves(env, world.At(ALONE), more[0].action, dataset)
      && Served(env, Apply(env, world, more[0]), more[1..], dataset)
  }

  // ---- One served step ----

  /** One runner at a time is at work on an unchanging dataset, and the run is not cancelled. */
  ghost predicate UnderWay(env: Env, world: World, dataset: Queries, selected: Queries) {
    && Frozen(env, dataset, selected) && GenerationQueries(env, selected).Ok?
    && Sound(env, world) && SoloSound(env, world, selected) && NoGaps(env, world.At(ALONE))
    && !world.db.state.Cancelled?
  }

  /** How far the lone runner is from the end of its run, at most. */
  function Ahead(env: Env, world: World, selected: Queries): nat {
    Distance(env, world.At(ALONE), selected)
  }

  predicate Finished(world: World) {
    world.At(ALONE).Idle? && world.db.state.Completed?
  }

  lemma StandsOnSelection(env: Env, db: Db, l: Local, dataset: Queries, selected: Queries)
    requires Frozen(env, dataset, selected) && LocalInvariant(env, db, l)
    ensures WorksOn(l, selected)
  {
    if l.Planned? || l.Progressed? || l.Entering? || l.InRetrieval? || l.Found? || l.Stamped? || l.Closing?
       || l.Opening? || l.InGeneration? || l.Asking? || l.Drafted? || l.InJudging? || l.Judged? {
      StandsOnSelectable(env, db, l);
      OnlySelection(env, dataset, selected, l.queries);
    }
  }

  lemma StandsOnSelectable(env: Env, db: Db, l: Local)
    requires LocalInvariant(env, db, l)
    requires !l.Idle? && !l.Raised? && !l.MarkingFailed? && !l.Fetched? && !l.Prepared?
    ensures Selectable(env, l.queries)
  {}

  lemma EarlyStepsDoNotCancel(env: Env, db: Db, l: Local)
    requires l.Fetched? || l.Prepared? || l.Planned? || l.Progressed? || l.Entering?
    requires !db.state.Cancelled?
    ensures !Continue(env, db, l).0.state.Cancelled? && !Continue(env, db, l).1.MarkingFailed?
  {}

  lemma RetrievalStepsDoNotCancel(env: Env, db: Db, l: Local)
    requires l.InRetrieval? || l.Found? || l.Stamped? || l.Closing?
    requires !db.state.Cancelled?
    ensures !Continue(env, db, l).0.state.Cancelled? && !Continue(env, db, l).1.MarkingFailed?
  {}

  lemma OpeningDoesNotCancel(env: Env, db: Db, l: Local)
    requires l.Opening? && !db.state.Cancelled?
    ensures !Continue(env, db, l).0.state.Cancelled? && !Continue(env, db, l).1.MarkingFailed?
  {}

  lemma AnsweringDoesNotCancel(env: Env, db: Db, l: Local)
    requires (l.InGeneration? || l.Asking? || l.Drafted?) && !db.state.Cancelled?
    ensures !Continue(env, db, l).0.state.Cancelled? && !Continue(env, db, l).1.MarkingFailed?
  {}

  lemma JudgingDoesNotCancel(env: Env, db: Db, l: Local)
    requires (l.InJudging? || l.Judged?) && !db.state.Cancelled?
    ensures !Continue(env, db, l).0.state.Cancelled? && !Continue(env, db, l).1.MarkingFailed?
  {}

  lemma StepsDoNotCancel(env: Env, db: Db, l: Local)
    requires InRun(l) && !db.state.Cancelled?
    ensures !Continue(env, db, l).0.state.Cancelled? && !Continue(env, db, l).1.MarkingFailed?
  {
    if l.Fetched? || l.Prepared? || l.Planned? || l.Progressed? || l.Entering? {
      EarlyStepsDoNotCancel(env, db, l);
    } else if l.InRetrieval? || l.Found? || l.Stamped? || l.Closing? {
      RetrievalStepsDoNotCancel(env, db, l);
    } else if l.Opening? {
      OpeningDoesNotCancel(env, db, l);
    } else if l.InJudging? || l.Judged? {
      JudgingDoesNotCancel(env, db, l);
    } else {
      AnsweringDoesNotCancel(env, db, l);
    }
  }

  /** Nearer to the end, or there. */
  predicate GetsOn(env: Env, l: Local, after: Db, next: Local, selected: Queries) {
    if InRun(next) then Distance(env, next, selected) < Distance(env, l, selected)
    else next.Idle? && after.state.Completed?
  }

  lemma ProceedGetsOn(env: Env, db: Db, l: Local, dataset: Queries, selected: Queries)
    requires Frozen(env, dataset, selected) && GenerationQueries(env, selected).Ok?
    requires DbInvariant(env, db) && LocalInvariant(env, db, l) && NoGaps(env, l)
    requires SoloDb(env, db, selected) && SoloLocal(db, l) && !db.state.Cancelled?
    requires InRun(l) && !AwaitsReply(env, l)
    ensures GetsOn(env, l, Continue(env, db, l).0, Continue(env, db, l).1, selected)
  {
    var next := Continue(env, db, l);
    StandsOnSelection(env, db, l, dataset, selected);
    InvariantPlaces(env, db, l);
    MovesOrAwaits(env, db, l);
    ContinueIsNearer(env, db, l, selected);
    ContinueIsSolo(env, db, l, dataset, selected);
    StepsDoNotCancel(env, db, l);
    CompletesOrGoesOn(env, db, next.0, next.1, selected);
  }

  lemma CompletesOrGoesOn(env: Env, db: Db, after: Db, next: Local, selected: Queries)
    requires SoloStep(env, db, after, next, selected) && GenerationQueries(env, selected).Ok?
    requires !db.state.Cancelled? && !after.state.Cancelled? && !next.MarkingFailed?
    ensures InRun(next) || (next.Idle? && after.state.Completed?)
  {}

  lemma SearchReplyGoesOn(env: Env, db: Db, l: Local, response: Response)
    requires AwaitsSearch(l) && AcceptableSearch(env, l, response)
    ensures InRun(Next(env, db, l, Retrieve(response)).1) && Next(env, db, l, Retrieve(response)).1 != l
  {
    assert Next(env, db, l, Retrieve(response)).1 == Receive(env, l, response);
  }

  lemma ReplyGoesOn(env: Env, db: Db, l: Local, action: Action, dataset: Queries, selected: Queries)
    requires Frozen(env, dataset, selected) && AwaitsReply(env, l) && Replies(env, l, action, dataset)
    ensures InRun(Next(env, db, l, action).1) && Next(env, db, l, action).1 != l && Next(env, db, l, action).0 == db
  {
    if AwaitsSearch(l) {
      SearchReplyGoesOn(env, db, l, action.response);
    } else if l.Prepared? {
      assert Next(env, db, l, action).1 == Planned(l.run, selected);
    } else if l.Asking? {
      assert Next(env, db, l, action).1.Drafted?;
    } else {
      assert Next(env, db, l, action).1 == Judged(l.queries, l.persisted, l.work, action.verdicts);
    }
  }

  lemma ReplyGetsOn(env: Env, db: Db, l: Local, action: Action, dataset: Queries, selected: Queries)
    requires Frozen(env, dataset, selected) && LocalInvariant(env, db, l) && InRun(l)
    requires AwaitsReply(env, l) && Replies(env, l, action, dataset)
    ensures GetsOn(env, l, db, Next(env, db, l, action).1, selected) && Next(env, db, l, action).0 == db
  {
    StandsOnSelection(env, db, l, dataset, selected);
    ReplyGoesOn(env, db, l, action, dataset, selected);
    RepliesKnowTheDataset(env, l, action, dataset);
    StepIsNearer(env, db, l, action, dataset, selected);
  }

  lemma RepliesKnowTheDataset(env: Env, l: Local, action: Action, dataset: Queries)
    requires AwaitsReply(env, l) && Replies(env, l, action, dataset)
    ensures !action.Proceed? && (action.Load? ==> action.dataset == dataset)
  {}

  lemma StepStaysUnderWay(env: Env, world: World, action: Action, dataset: Queries, selected: Queries)
    requires UnderWay(env, world, dataset, selected) && (action.Load? ==> action.dataset == dataset)
    ensures var next := Apply(env, world, Step(ALONE, action));
            Sound(env, next) && SoloSound(env, next, selected) && NoGaps(env, next.At(ALONE))
  {
    ApplySound(env, world, Step(ALONE, action));
    ApplyIsSolo(env, world, Step(ALONE, action), dataset, selected);
    EventLeavesNoGaps(env, world, dataset, ALONE, Step(ALONE, action));
  }

  lemma ServedStepGetsOn(env: Env, world: World, action: Action, dataset: Queries, selected: Queries)
    requires UnderWay(env, world, dataset, selected) && InRun(world.At(ALONE))
    requires Serves(env, world.At(ALONE), action, dataset)
    ensures var l, next := world.At(ALONE), Next(env, world.db, world.At(ALONE), action);
            GetsOn(env, l, next.0, next.1, selected) && !next.0.state.Cancelled?
            && (action.Load? ==> action.dataset == dataset)
  {
    var l := world.At(ALONE);
    Standing(env, world, ALONE);
    if AwaitsReply(env, l) {
      RepliesKnowTheDataset(env, l, action, dataset);
      ReplyGetsOn(env, world.db, l, action, dataset, selected);
    } else {
      ProceedGetsOn(env, world.db, l, dataset, selected);
      StepsDoNotCancel(env, world.db, l);
      ProceedIsFree(env, world.db, l);
    }
  }

  lemma InRunIsAhead(env: Env, l: Local, selected: Queries)
    requires InRun(l)
    ensures Distance(env, l, selected) > 0
  {}

  lemma ServedStep(env: Env, world: World, action: Action, dataset: Queries, selected: Queries) returns (next: World)
    requires UnderWay(env, world, dataset, selected) && InRun(world.At(ALONE))
    requires Serves(env, world.At(ALONE), action, dataset)
    ensures next == Apply(env, world, Step(ALONE, action)) && UnderWay(env, next, dataset, selected)
    ensures if InRun(next.At(ALONE)) then Ahead(env, next, selected) < Ahead(env, world, selected) else Finished(next)
    ensures Ahead(env, world, selected) > 0
  {
    InRunIsAhead(env, world.At(ALONE), selected);
    next := Apply(env, world, Step(ALONE, action));
    OwnStep(env, world, Step(ALONE, action));
    ServedStepGetsOn(env, world, action, dataset, selected);
    StepStaysUnderWay(env, world, action, dataset, selected);
  }

  // ---- Whole runs ----

  lemma ServedHead(env: Env, world: World, more: seq<Event>, dataset: Queries) returns (action: Action)
    requires Served(env, world, more, dataset) && InRun(world.At(ALONE)) && more != []
    ensures more[0] == Step(ALONE, action) && Serves(env, world.At(ALONE), action, dataset)
    ensures Served(env, Apply(env, world, Step(ALONE, action)), more[1..], dataset)
  {
    action := more[0].action;
  }

  lemma AfterHead(env: Env, world: World, more: seq<Event>, k: nat)
    requires k < |more|
    ensures After(env, world, more[..k + 1]) == After(env, Apply(env, world, more[0]), more[1..][..k])
  {
    assert more[..k + 1][1..] == more[1..][..k];
  }

  lemma {:induction false} ServedRunsFinish(env: Env, world: World, more: seq<Event>, dataset: Queries,
                                            selected: Queries) returns (k: nat)
    requires UnderWay(env, world, dataset, selected) && InRun(world.At(ALONE))
    requires Served(env, world, more, dataset) && |more| >= Ahead(env, world, selected)
    ensures k <= Ahead(env, world, selected) && k <= |more|
    ensures Finished(After(env, world, more[..k]))
    decreases |more|
  {
    InRunIsAhead(env, world.At(ALONE), selected);
    var action := ServedHead(env, world, more, dataset);
    var next := ServedStep(env, world, action, dataset, selected);
    var rest := 0;
    if InRun(next.At(ALONE)) {
      rest := ServedRunsFinish(env, next, more[1..], dataset, selected);
    }
    k := rest + 1;
    AfterHead(env, world, more, rest);
  }

  lemma SoloReachableIsUnderWay(env: Env, world: World, dataset: Queries, selected: Queries)
    requires Frozen(env, dataset, selected) && GenerationQueries(env, selected).Ok?
    requires SoloReachable(env, world) && !world.db.state.Cancelled?
    ensures UnderWay(env, world, dataset, selected)
  {
    SoloReachableIsSound(env, world, dataset, selected);
  }

  /**
   * Wherever crashes and restarts have left it, a lone runner that is served ends with the run completed, after no
   * more steps than its distance from the end; only a cancellation or a generation sample larger than the selection
   * can keep it from that.
   */
  lemma ServedRunsComplete(env: Env, world: World, more: seq<Event>, dataset: Queries, selected: Queries)
    requires Frozen(env, dataset, selected) && GenerationQueries(env, selected).Ok?
    requires SoloReachable(env, world) && !world.db.state.Cancelled? && InRun(world.At(ALONE))
    requires Served(env, world, more, dataset) && |more| >= Ahead(env, world, selected)
    ensures exists k: nat :: k <= Ahead(env, world, selected) && k <= |more|
                             && Finished(After(env, world, more[..k]))
  {
    SoloReachableIsUnderWay(env, world, dataset, selected);
    var k := ServedRunsFinish(env, world, more, dataset, selected);
  }

  // ---- Such replies exist ----

  lemma SomeReply(env: Env, db: Db, l: Local, dataset: Queries) returns (action: Action)
    requires LocalInvariant(env, db, l) && ValidEnv(env) && InRun(l)
    ensures Serves(env, l, action, dataset)
  {
    if !AwaitsReply(env, l) {
      action := Proceed;
    } else if l.Prepared? {
      action := Load(dataset, env.variantHashes);
    } else if l.Asking? {
      var refusal := AnswerResponse("", [], false, None, [], NO_USAGE, Refusal, Provenance("", "", ""), "", false, None,
                                    Some("refused"));
      action := Answer(refusal, AnswerMetrics(0.0, 0.0, 0.0, None), None);
    } else if AwaitsSearch(l) {
      action := SomeSearch(env, db, l);
    } else {
      var verdicts := VerdictsFor(MissingProfiles(env.spec, l.persisted[l.work[0]]));
      action := Judge(verdicts);
    }
  }

  lemma SomeSearch(env: Env, db: Db, l: Local) returns (action: Action)
    requires LocalInvariant(env, db, l) && ValidEnv(env) && AwaitsSearch(l)
    ensures action.Retrieve? && AcceptableSearch(env, l, action.response)
  {
    var v := l.todo[0].work.variant;
    SuffixMember(l.todo, Program(l.queries, env.spec.variants), l.todo[0]);
    ProgramMembers(l.queries, env.spec.variants, l.todo[0].work);
    assert v in ToSet(env.spec.variants);
    var fingerprint := if v in l.pinned then l.pinned[v] else "f";
    action := Retrieve(Response(env.variantHashes[v], fingerprint, [], RetrievalMetrics.Scores(0.0, 0.0, 0.0, 0.0)));
  }

  lemma {:induction false} SomeRunFinishes(env: Env, world: World, dataset: Queries, selected: Queries)
    returns (more: seq<Event>)
    requires UnderWay(env, world, dataset, selected) && InRun(world.At(ALONE))
    ensures Served(env, world, more, dataset) && Finished(After(env, world, more))
    ensures Possible(env, more) && OnlySteps(more, ALONE)
    ensures |more| <= Ahead(env, world, selected)
    decreases Ahead(env, world, selected)
  {
    Standing(env, world, ALONE);
    var action := SomeReply(env, world.db, world.At(ALONE), dataset);
    assert action.Load? ==> action.dataset in env.versions;
    var next := ServedStep(env, world, action, dataset, selected);
    var rest := [];
    if InRun(next.At(ALONE)) {
      rest := SomeRunFinishes(env, next, dataset, selected);
    } else {
      NothingMore(env, next, dataset);
    }
    more := OneMore(env, world, action, rest, dataset);
  }

  lemma NothingMore(env: Env, world: World, dataset: Queries)
    ensures Served(env, world, [], dataset) && Possible(env, []) && OnlySteps([], ALONE)
    ensures After(env, world, []) == world
  {}

  lemma OneMore(env: Env, world: World, action: Action, rest: seq<Event>, dataset: Queries) returns (more: seq<Event>)
    requires Serves(env, world.At(ALONE), action, dataset) && (action.Load? ==> action.dataset in env.versions)
    requires Served(env, Apply(env, world, Step(ALONE, action)), rest, dataset)
    requires Possible(env, rest) && OnlySteps(rest, ALONE)
    ensures Served(env, world, more, dataset) && Possible(env, more) && OnlySteps(more, ALONE)
    ensures |more| == |rest| + 1
    ensures After(env, world, more) == After(env, Apply(env, world, Step(ALONE, action)), rest)
  {
    more := [Step(ALONE, action)] + rest;
    assert more[1..] == rest;
  }

  lemma SoloReachableNext(env: Env, world: World, action: Action) returns (next: World)
    requires SoloReachable(env, world) && !action.Load?
    ensures next == Apply(env, world, Step(ALONE, action)) && SoloReachable(env, next)
  {
    next := Apply(env, world, Step(ALONE, action));
    var events :| Possible(env, events) && Solo(events) && Execute(env, events) == world;
    var all := events + [Step(ALONE, action)];
    assert all[..|all| - 1] == events;
    assert Possible(env, all) && Solo(all);
    assert Execute(env, all) == next;
  }

  /** The runner is killed, whatever it was about, and the run is delivered once more. */
  lemma Restart(env: Env, world: World) returns (next: World)
    requires SoloReachable(env, world) && !world.db.state.Terminal() && !world.db.state.Created?
    ensures next == Apply(env, Apply(env, world, Step(ALONE, Crash)), Step(ALONE, Proceed))
    ensures SoloReachable(env, next) && next.db == world.db && next.At(ALONE) == Fetched(View(world.db))
  {
    var gone := SoloReachableNext(env, world, Crash);
    OwnStep(env, world, Step(ALONE, Crash));
    next := SoloReachableNext(env, gone, Proceed);
    OwnStep(env, gone, Step(ALONE, Proceed));
  }

  lemma AfterTwo(env: Env, world: World, first: Event, second: Event, more: seq<Event>)
    ensures After(env, world, [first, second] + more)
         == After(env, Apply(env, Apply(env, world, first), second), more)
  {
    var all := [first, second] + more;
    assert all[1..] == [second] + more && all[1..][1..] == more;
  }

  /** Whatever has happened to it, a run that was enqueued and has not ended can be restarted and completed. */
  lemma UnfinishedRunsCanComplete(env: Env, world: World, dataset: Queries, selected: Queries)
    requires Frozen(env, dataset, selected) && GenerationQueries(env, selected).Ok?
    requires SoloReachable(env, world) && !world.db.state.Terminal() && !world.db.state.Created?
    ensures exists more :: Possible(env, more) && OnlySteps(more, ALONE) && Finished(After(env, world, more))
  {
    var next := Restart(env, world);
    var more := RestartedRunFinishes(env, next, dataset, selected);
    AfterTwo(env, world, Step(ALONE, Crash), Step(ALONE, Proceed), more);
    var all := [Step(ALONE, Crash), Step(ALONE, Proceed)] + more;
    assert Possible(env, all) && OnlySteps(all, ALONE);
  }

  lemma RestartedRunFinishes(env: Env, world: World, dataset: Queries, selected: Queries) returns (more: seq<Event>)
    requires Frozen(env, dataset, selected) && GenerationQueries(env, selected).Ok?
    requires SoloReachable(env, world) && !world.db.state.Terminal() && world.At(ALONE).Fetched?
    ensures Possible(env, more) && OnlySteps(more, ALONE) && Finished(After(env, world, more))
  {
    SoloReachableIsUnderWay(env, world, dataset, selected);
    more := SomeRunFinishes(env, world, dataset, selected);
  }
}
