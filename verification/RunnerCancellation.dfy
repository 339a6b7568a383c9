/** What is still asked for, paid for and stored after a run was cancelled. */
module RunnerCancellation {
  import opened EvaluationContract
  import opened EvaluationStore
  import opened EvaluationPlan
  import opened EvaluationRunner
  import opened RunnerSafety
  import opened RunnerHistory

  // ---- Calls and what they are counted by ----

  /** Whatever was being waited for, the step ends the wait: with an error, or with the runner's process. */
  predicate Interrupts(action: Action) {
    action.Fail? || action.Crash?
  }

  predicate AwaitsSearch(l: Local) {
    l.InRetrieval? && l.todo != [] && l.todo[0].Search? && l.todo[0].work !in l.done
  }

  predicate AwaitsVerdicts(env: Env, l: Local) {
    && l.InJudging? && l.work != [] && l.work[0] in l.persisted
    && Judgeable(l.persisted[l.work[0]]) && MissingProfiles(env.spec, l.persisted[l.work[0]]) != {}
  }

  /** How many of the listed profiles have no verdict in the row; a profile listed twice is asked twice. */
  function Lacking(profiles: seq<Profile>, row: ResultRow): nat {
    if profiles == [] then 0
    else (if profiles[0] in Profiles(row.judgeRecords) then 0 else 1) + Lacking(profiles[1..], row)
  }

  function CallsFor(env: Env, row: ResultRow): nat {
    if Judgeable(row) then Lacking(env.spec.judgeProfiles, row) else 0
  }

  /** What a step of a runner costs in calls or rows. */
  type Cost = (Env, Db, Local, Action) -> nat

  function SearchCalls(env: Env, db: Db, l: Local, action: Action): nat {
    if AwaitsSearch(l) && (action.Retrieve? || Interrupts(action)) then 1 else 0
  }

  function AnswerCalls(env: Env, db: Db, l: Local, action: Action): nat {
    if l.Asking? && (action.Answer? || Interrupts(action)) then 1 else 0
  }

  function JudgeCalls(env: Env, db: Db, l: Local, action: Action): nat {
    if AwaitsVerdicts(env, l) && (Interrupts(action) || (action.Judge? && AsksMissing(env, l, action.verdicts))) then
      CallsFor(env, l.persisted[l.work[0]])
    else 0
  }

  function RowsAdded(env: Env, db: Db, l: Local, action: Action): nat {
    var after := Next(env, db, l, action).0;
    if |after.rows| > |db.rows| then |after.rows| - |db.rows| else 0
  }

  function EventCost(env: Env, world: World, event: Event, r: RunnerId, cost: Cost): nat {
    if event.Step? && event.runner == r then cost(env, world.db, world.At(r), event.action) else 0
  }

  /** What all steps of one runner among these events cost together. */
  function Total(env: Env, world: World, more: seq<Event>, r: RunnerId, cost: Cost): nat
    decreases |more|
  {
    if more == [] then 0
    else EventCost(env, world, more[0], r, cost) + Total(env, Apply(env, world, more[0]), more[1..], r, cost)
  }

  // ---- What lies ahead of a runner before it notices ----

  /** The searches before the loop next looks for a cancellation. */
  function SearchesBefore(todo: seq<Item>, done: set<Work>): nat {
    if todo == [] || todo[0].CheckCancelled? then 0
    else (if todo[0].work in done then 0 else 1) + SearchesBefore(todo[1..], done)
  }

  function SearchesAhead(l: Local): nat {
    if l.InRetrieval? then SearchesBefore(l.todo, l.done)
    else if (l.Found? || l.Stamped?) && l.todo != [] then SearchesBefore(l.todo[1..], l.done)
    else 0
  }

  function AnswersAhead(l: Local): nat {
    if l.Asking? then 1 else 0
  }

  function RowsAhead(l: Local): nat {
    SearchesAhead(l) + if l.Found? || l.Stamped? then 1 else 0
  }

  lemma {:induction false} FewerThanBeforeCheck(todo: seq<Item>, done: set<Work>)
    ensures SearchesBefore(todo, done) <= SearchesBeforeCheck(todo)
  {
    if todo != [] && todo[0].Search? { FewerThanBeforeCheck(todo[1..], done); }
  }

  lemma AheadIsBounded(env: Env, db: Db, l: Local)
    requires LocalInvariant(env, db, l)
    ensures SearchesAhead(l) <= RowsAhead(l) <= |env.spec.variants|
  {
    if l.InRetrieval? || l.Found? || l.Stamped? {
      CheckIsNear(l.queries, env.spec.variants, l.todo);
      FewerThanBeforeCheck(l.todo, l.done);
      if !l.InRetrieval? { FewerThanBeforeCheck(l.todo[1..], l.done); }
    } else {
      SearchesNeedStanding(l);
    }
  }

  lemma SearchesNeedStanding(l: Local)
    requires !l.InRetrieval? && !l.Found? && !l.Stamped?
    ensures RowsAhead(l) == 0
  {}

  // ---- One step of a cancelled run ----

  lemma EarlyHasNothingAhead(env: Env, db: Db, l: Local)
    requires l.Idle? || l.Raised? || l.MarkingFailed? || l.Fetched? || l.Prepared? || l.Planned? || l.Progressed?
    ensures RowsAhead(Continue(env, db, l).1) == 0
  {}

  lemma LateHasNothingAhead(env: Env, db: Db, l: Local)
    requires l.Closing? || l.Opening? || l.Asking? || l.InJudging?
    ensures RowsAhead(Continue(env, db, l).1) == 0
  {}

  lemma AnsweringHasNothingAhead(env: Env, db: Db, l: Local)
    requires l.InGeneration? || l.Drafted? || l.Judged?
    ensures RowsAhead(Continue(env, db, l).1) == 0
  {}

  lemma EnteringHasNothingAhead(env: Env, db: Db, l: Local)
    requires l.Entering?
    ensures RowsAhead(Continue(env, db, l).1) == 0
  {
    ProgramStart(l.queries, env.spec.variants);
  }

  lemma LoopPays(env: Env, db: Db, l: Local)
    requires db.state.Cancelled? && l.InRetrieval?
    ensures RowsAhead(Retrieved(env, db, l)) <= RowsAhead(l)
    ensures SearchesAhead(Retrieved(env, db, l)) <= SearchesAhead(l)
  {}

  lemma StampPays(env: Env, db: Db, l: Local)
    requires l.Found? && l.todo != [] && l.todo[0].Search?
    ensures RowsAhead(Stamp(env, db, l).1) <= RowsAhead(l) && Stamp(env, db, l).0.rows == db.rows
    ensures SearchesAhead(Stamp(env, db, l).1) <= SearchesAhead(l)
  {}

  lemma StorePays(db: Db, l: Local)
    requires l.Stamped? && l.todo != [] && l.todo[0].Search?
    ensures |Store(db, l).0.rows| - |db.rows| + RowsAhead(Store(db, l).1) <= RowsAhead(l)
    ensures SearchesAhead(Store(db, l).1) <= SearchesAhead(l)
  {
    var result := AfterResult(db, l.todo[0].work, NewRow(l.response.ranking, l.response.scores));
    if result.Ok? {
      assert |result.value.rows| <= |db.rows| + 1;
    }
  }

  lemma RetrievalPays(env: Env, db: Db, l: Local)
    requires LocalInvariant(env, db, l) && db.state.Cancelled? && (l.InRetrieval? || l.Found? || l.Stamped?)
    ensures RowsAdded(env, db, l, Proceed) + RowsAhead(Continue(env, db, l).1) <= RowsAhead(l)
    ensures SearchesAhead(Continue(env, db, l).1) <= SearchesAhead(l)
  {
    if l.InRetrieval? {
      LoopPays(env, db, l);
      assert Continue(env, db, l) == (db, Retrieved(env, db, l));
    } else if l.Found? {
      StampPays(env, db, l);
      assert Continue(env, db, l) == Stamp(env, db, l);
    } else {
      StorePays(db, l);
      assert Continue(env, db, l) == Store(db, l);
    }
  }

  lemma OthersAddNoRow(env: Env, db: Db, l: Local)
    requires LocalInvariant(env, db, l) && !l.Stamped?
    ensures RowsAdded(env, db, l, Proceed) == 0
  {
    var after := Continue(env, db, l).0;
    if l.Drafted? || l.Judged? {
      UpdatesAddNoRow(env, db, l);
      assert |after.rows| == |after.rows.Keys| == |db.rows.Keys| == |db.rows|;
    } else {
      OtherStepsAddNoRow(env, db, l);
    }
  }

  lemma ContinuePays(env: Env, db: Db, l: Local)
    requires LocalInvariant(env, db, l) && db.state.Cancelled?
    ensures RowsAdded(env, db, l, Proceed) + RowsAhead(Continue(env, db, l).1) <= RowsAhead(l)
    ensures SearchesAhead(Continue(env, db, l).1) <= SearchesAhead(l)
  {
    if l.InRetrieval? || l.Found? || l.Stamped? {
      RetrievalPays(env, db, l);
    } else {
      OthersAddNoRow(env, db, l);
      if l.Entering? {
        EnteringHasNothingAhead(env, db, l);
      } else if l.Closing? || l.Opening? || l.Asking? || l.InJudging? {
        LateHasNothingAhead(env, db, l);
      } else if l.InGeneration? || l.Drafted? || l.Judged? {
        AnsweringHasNothingAhead(env, db, l);
      } else {
        EarlyHasNothingAhead(env, db, l);
      }
    }
  }

  lemma ReceivePays(env: Env, l: Local, response: Response)
    requires AwaitsSearch(l)
    ensures RowsAhead(Receive(env, l, response)) <= RowsAhead(l)
    ensures 1 + SearchesAhead(Receive(env, l, response)) <= SearchesAhead(l)
  {}

  lemma InterruptPays(env: Env, db: Db, l: Local, action: Action)
    requires Interrupts(action)
    ensures RowsAhead(Next(env, db, l, action).1) == 0
    ensures AwaitsSearch(l) ==> SearchesAhead(l) >= 1
  {}

  lemma OutsidePays(env: Env, db: Db, l: Local, action: Action)
    requires !action.Proceed?
    ensures RowsAhead(Next(env, db, l, action).1) <= RowsAhead(l)
    ensures SearchCalls(env, db, l, action) + SearchesAhead(Next(env, db, l, action).1) <= SearchesAhead(l)
  {
    if action.Retrieve? && AwaitsSearch(l) {
      ReceivePays(env, l, action.response);
      assert Next(env, db, l, action).1 == Receive(env, l, action.response);
    } else if Interrupts(action) {
      InterruptPays(env, db, l, action);
    } else {
      RepliesElsewhere(env, db, l, action);
    }
  }

  lemma RepliesElsewhere(env: Env, db: Db, l: Local, action: Action)
    requires action.Load? || action.Answer? || action.Judge? || (action.Retrieve? && !AwaitsSearch(l))
    ensures Next(env, db, l, action).1 == l || RowsAhead(Next(env, db, l, action).1) == 0
  {}

  lemma SearchStepPays(env: Env, db: Db, l: Local, action: Action)
    requires LocalInvariant(env, db, l) && db.state.Cancelled?
    ensures SearchCalls(env, db, l, action) + SearchesAhead(Next(env, db, l, action).1) <= SearchesAhead(l)
  {
    if action.Proceed? { ContinuePays(env, db, l); } else { OutsidePays(env, db, l, action); }
  }

  lemma RowStepPays(env: Env, db: Db, l: Local, action: Action)
    requires LocalInvariant(env, db, l) && db.state.Cancelled?
    ensures RowsAdded(env, db, l, action) + RowsAhead(Next(env, db, l, action).1) <= RowsAhead(l)
  {
    if action.Proceed? {
      ContinuePays(env, db, l);
    } else {
      OutsidePays(env, db, l, action);
      assert Next(env, db, l, action).0 == db;
    }
  }

  lemma GenerationChecks(env: Env, db: Db, l: Local)
    requires db.state.Cancelled? && l.InGeneration?
    ensures !Generate(env, db, l).1.Asking?
  {}

  lemma OthersAskNothing(env: Env, db: Db, l: Local)
    requires !l.InGeneration? && !l.Asking?
    ensures !Continue(env, db, l).1.Asking?
  {}

  lemma AnswerStepPays(env: Env, db: Db, l: Local, action: Action)
    requires db.state.Cancelled?
    ensures AnswerCalls(env, db, l, action) + AnswersAhead(Next(env, db, l, action).1) <= AnswersAhead(l)
  {
    if action.Proceed? {
      if l.InGeneration? {
        GenerationChecks(env, db, l);
      } else if !l.Asking? {
        OthersAskNothing(env, db, l);
      }
    } else if !l.Asking? {
      OutsideAsksNothing(env, db, l, action);
    }
  }

  lemma OutsideAsksNothing(env: Env, db: Db, l: Local, action: Action)
    requires !action.Proceed? && !l.Asking?
    ensures !Next(env, db, l, action).1.Asking?
  {}

  // ---- All further events of a cancelled run ----

  /** The run is cancelled; what other runners and users do may be anything. */
  ghost predicate WasCancelled(env: Env, world: World) {
    Sound(env, world) && world.db.state.Cancelled?
  }

  lemma StaysCancelled(env: Env, world: World, more: seq<Event>)
    requires ValidEnv(env) && WasCancelled(env, world) && Possible(env, more) && more != []
    ensures WasCancelled(env, Apply(env, world, more[0])) && Possible(env, more[1..])
    ensures RowsKept(world.db.rows, Apply(env, world, more[0]).db.rows)
  {
    ApplySound(env, world, more[0]);
    assert forall e <- more[1..] :: e in more;
  }

  lemma Standing(env: Env, world: World, r: RunnerId)
    requires Sound(env, world)
    ensures LocalInvariant(env, world.db, world.At(r))
  {}

  lemma OthersLeaveStanding(env: Env, world: World, event: Event, r: RunnerId)
    requires !(event.Step? && event.runner == r)
    ensures Apply(env, world, event).At(r) == world.At(r)
  {}

  lemma OwnStep(env: Env, world: World, event: Event)
    requires event.Step?
    ensures Apply(env, world, event).At(event.runner) == Next(env, world.db, world.At(event.runner), event.action).1
  {}

  /** If every step of a runner pays for itself out of what lies ahead of it, so do all its steps together. */
  lemma {:induction false} Amortize(env: Env, world: World, more: seq<Event>, r: RunnerId, cost: Cost,
                                    ahead: Local -> nat)
    requires ValidEnv(env) && WasCancelled(env, world) && Possible(env, more)
    requires forall db, l, action :: LocalInvariant(env, db, l) && db.state.Cancelled? ==>
               cost(env, db, l, action) + ahead(Next(env, db, l, action).1) <= ahead(l)
    ensures Total(env, world, more, r, cost) <= ahead(world.At(r))
    decreases |more|
  {
    if more != [] {
      StaysCancelled(env, world, more);
      Amortize(env, Apply(env, world, more[0]), more[1..], r, cost, ahead);
      Standing(env, world, r);
      if more[0].Step? && more[0].runner == r {
        OwnStep(env, world, more[0]);
      } else {
        OthersLeaveStanding(env, world, more[0], r);
      }
    }
  }

  /** After a cancellation a runner starts no search beyond those before its next look, at most one per variant. */
  lemma SearchesAfterCancellation(env: Env, world: World, more: seq<Event>, r: RunnerId)
    requires ValidEnv(env) && Reachable(env, world) && world.db.state.Cancelled? && Possible(env, more)
    ensures Total(env, world, more, r, SearchCalls) <= SearchesAhead(world.At(r)) <= |env.spec.variants|
  {
    ReachableIsSound(env, world);
    forall db, l, action | LocalInvariant(env, db, l) && db.state.Cancelled?
      ensures SearchCalls(env, db, l, action) + SearchesAhead(Next(env, db, l, action).1) <= SearchesAhead(l)
    {
      SearchStepPays(env, db, l, action);
    }
    Amortize(env, world, more, r, SearchCalls, SearchesAhead);
    AheadIsBounded(env, world.db, world.At(r));
  }

  /** It stores no more than the results of these searches and of one made before. */
  lemma RowsAfterCancellation(env: Env, world: World, more: seq<Event>, r: RunnerId)
    requires ValidEnv(env) && Reachable(env, world) && world.db.state.Cancelled? && Possible(env, more)
    ensures Total(env, world, more, r, RowsAdded) <= RowsAhead(world.At(r)) <= |env.spec.variants|
  {
    ReachableIsSound(env, world);
    forall db, l, action | LocalInvariant(env, db, l) && db.state.Cancelled?
      ensures RowsAdded(env, db, l, action) + RowsAhead(Next(env, db, l, action).1) <= RowsAhead(l)
    {
      RowStepPays(env, db, l, action);
    }
    Amortize(env, world, more, r, RowsAdded, RowsAhead);
    AheadIsBounded(env, world.db, world.At(r));
  }

  /** No answer is asked for after a cancellation, except one that was being waited for already. */
  lemma AnswersAfterCancellation(env: Env, world: World, more: seq<Event>, r: RunnerId)
    requires ValidEnv(env) && Reachable(env, world) && world.db.state.Cancelled? && Possible(env, more)
    ensures Total(env, world, more, r, AnswerCalls) <= if world.At(r).Asking? then 1 else 0
  {
    ReachableIsSound(env, world);
    forall db, l, action | LocalInvariant(env, db, l) && db.state.Cancelled?
      ensures AnswerCalls(env, db, l, action) + AnswersAhead(Next(env, db, l, action).1) <= AnswersAhead(l)
    {
      AnswerStepPays(env, db, l, action);
    }
    Amortize(env, world, more, r, AnswerCalls, AnswersAhead);
  }
}
