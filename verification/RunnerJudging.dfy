/** The verdicts that are still asked for after a run was cancelled: the judge stage does not look. */
module RunnerJudging {
  import opened Prelude
  import opened GenerationContract
  import opened EvaluationContract
  import opened EvaluationStore
  import opened EvaluationPlan
  import opened EvaluationRunner
  import opened RunnerSafety
  import opened RunnerHistory
  import opened RunnerCancellation

  // ---- What lies ahead ----

  /** The verdicts that the judge loop asks for before it ends or meets a row without an answer. */
  function VerdictsAhead(env: Env, rows: map<Work, ResultRow>, work: seq<Work>): nat {
    if work == [] || !HasAnswer(rows, work[0]) then 0
    else CallsFor(env, rows[work[0]]) + VerdictsAhead(env, rows, work[1..])
  }

  function CallsAtMost(env: Env, rows: map<Work, ResultRow>, w: Work): nat {
    if HasAnswer(rows, w) then CallsFor(env, rows[w]) else |env.spec.judgeProfiles|
  }

  /** The most it may ask for if other runners store answers meanwhile. */
  function VerdictsAtMost(env: Env, rows: map<Work, ResultRow>, work: seq<Work>): nat {
    if work == [] then 0
    else CallsAtMost(env, rows, work[0]) + VerdictsAtMost(env, rows, work[1..])
  }

  lemma {:induction false} AheadIsAtMost(env: Env, rows: map<Work, ResultRow>, work: seq<Work>)
    ensures VerdictsAhead(env, rows, work) <= VerdictsAtMost(env, rows, work)
  {
    if work != [] { AheadIsAtMost(env, rows, work[1..]); }
  }

  lemma {:induction false} LackingShrinks(profiles: seq<Profile>, before: ResultRow, after: ResultRow)
    requires before.judgeRecords <= after.judgeRecords
    ensures Lacking(profiles, after) <= Lacking(profiles, before) <= |profiles|
  {
    assert Profiles(before.judgeRecords) <= Profiles(after.judgeRecords) by {
      assert forall x <- before.judgeRecords :: x in after.judgeRecords;
    }
    if profiles != [] { LackingShrinks(profiles[1..], before, after); }
  }

  lemma CallsShrink(env: Env, before: ResultRow, after: ResultRow)
    requires RowAdvance(before, after)
    ensures before.answer.Some? ==> after.answer.Some? && CallsFor(env, after) <= CallsFor(env, before)
    ensures CallsFor(env, after) <= |env.spec.judgeProfiles|
  {
    LackingShrinks(env.spec.judgeProfiles, before, after);
  }

  /** What other runners commit never adds to the most that may be asked for. */
  lemma {:induction false} AtMostShrinks(env: Env, before: map<Work, ResultRow>, after: map<Work, ResultRow>,
                                         work: seq<Work>)
    requires RowsKept(before, after)
    ensures VerdictsAtMost(env, after, work) <= VerdictsAtMost(env, before, work)
  {
    if work != [] {
      AtMostShrinks(env, before, after, work[1..]);
      HeadShrinks(env, before, after, work[0]);
    }
  }

  lemma HeadShrinks(env: Env, before: map<Work, ResultRow>, after: map<Work, ResultRow>, w: Work)
    requires RowsKept(before, after)
    ensures CallsAtMost(env, after, w) <= CallsAtMost(env, before, w)
  {
    if w in before {
      CallsShrink(env, before[w], after[w]);
    } else if w in after {
      LackingShrinks(env.spec.judgeProfiles, after[w], after[w]);
    }
  }

  lemma {:induction false} LackingNothing(env: Env, profiles: seq<Profile>, row: ResultRow)
    ensures Lacking(profiles, row) == 0 <==> ToSet(profiles) <= Profiles(row.judgeRecords)
  {
    if profiles != [] {
      LackingNothing(env, profiles[1..], row);
      assert ToSet(profiles) == {profiles[0]} + ToSet(profiles[1..]) by {
        assert profiles == [profiles[0]] + profiles[1..];
      }
    }
  }

  lemma NothingLeft<T>(a: set<T>, b: set<T>)
    ensures a - b == {} <==> a <= b
  {
    assert forall x <- a :: x in b || x in a - b;
  }

  /** A row is asked about exactly if it can be judged and lacks a profile. */
  lemma CallsForExactly(env: Env, row: ResultRow)
    ensures CallsFor(env, row) > 0 <==> Judgeable(row) && MissingProfiles(env.spec, row) != {}
  {
    LackingNothing(env, env.spec.judgeProfiles, row);
    NothingLeft(ToSet(env.spec.judgeProfiles), Profiles(row.judgeRecords));
  }

  /** What lies ahead in the judge stage of these queries, if the runner is left alone until it opens it, and if not. */
  function JudgeWork(env: Env, db: Db, queries: Queries, alone: bool): nat {
    if alone then VerdictsAhead(env, db.rows, AnswerWork(env, queries))
    else VerdictsAtMost(env, db.rows, AnswerWork(env, queries))
  }

  /** A runner that goes on from this state asks for at most n verdicts in the judge stage of these queries. */
  predicate Opens(env: Env, db: Db, state: RunState, queries: Queries, alone: bool, n: nat) {
    state.Judging? ==> JudgeWork(env, db, queries, alone) <= n
  }

  ghost predicate AnyOpens(env: Env, db: Db, state: RunState, alone: bool, n: nat) {
    forall q :: Selectable(env, q) ==> Opens(env, db, state, q, alone, n)
  }

  /**
   * At most n verdicts lie ahead of the runner: it is in the judge stage, or on its way there because the run was in
   * that stage when it was fetched.
   */
  ghost predicate Within(env: Env, db: Db, l: Local, alone: bool, n: nat) {
    match l
    case Fetched(run) => AnyOpens(env, db, run.state, alone, n)
    case Prepared(run) => AnyOpens(env, db, run.state, alone, n)
    case Planned(run, queries) => Opens(env, db, run.state, queries, alone, n)
    case Opening(state, queries) => Opens(env, db, state, queries, alone, n)
    case InJudging(_, persisted, work) => VerdictsAhead(env, persisted, work) <= n
    case Judged(_, persisted, work, _) => work != [] ==> VerdictsAhead(env, persisted, work[1..]) <= n
    case _ => true
  }

  lemma WithinKept(env: Env, before: Db, after: Db, l: Local, n: nat)
    requires RowsKept(before.rows, after.rows) && Within(env, before, l, false, n)
    ensures Within(env, after, l, false, n)
  {
    forall q ensures VerdictsAtMost(env, after.rows, AnswerWork(env, q))
                  <= VerdictsAtMost(env, before.rows, AnswerWork(env, q))
    {
      AtMostShrinks(env, before.rows, after.rows, AnswerWork(env, q));
    }
  }

  predicate JudgeStanding(l: Local) {
    l.Fetched? || l.Prepared? || l.Planned? || l.Opening? || l.InJudging? || l.Judged?
  }

  lemma NothingAheadElsewhere(env: Env, db: Db, l: Local, alone: bool, n: nat)
    requires !JudgeStanding(l)
    ensures Within(env, db, l, alone, n)
  {}

  // ---- One step of a cancelled run ----

  lemma EarlyStays(env: Env, db: Db, l: Local)
    requires db.state.Cancelled? && (l.Idle? || l.Raised? || l.MarkingFailed?)
    ensures !JudgeStanding(Continue(env, db, l).1)
  {}

  lemma RetrievalStays(env: Env, db: Db, l: Local)
    requires l.Progressed? || l.Entering? || l.InRetrieval? || l.Found? || l.Stamped?
    ensures !JudgeStanding(Continue(env, db, l).1)
  {}

  lemma MovesAreRefused(db: Db, target: RunState, queries: Queries)
    requires db.state.Cancelled? && target in {RunState.Generating, RunState.Judging, Scoring}
    ensures MoveTo(db, target, queries).1 == Raised
  {}

  lemma GenerationStays(env: Env, db: Db, l: Local)
    requires db.state.Cancelled? && (l.Closing? || l.InGeneration? || l.Asking? || l.Drafted?)
    ensures !JudgeStanding(Continue(env, db, l).1)
  {
    if l.Closing? {
      MovesAreRefused(db, AfterRetrieval(env.spec), l.queries);
    } else if l.InGeneration? && l.work == [] {
      MovesAreRefused(db, AfterGeneration(env.spec), l.queries);
    }
  }

  lemma FetchedStays(env: Env, db: Db, l: Local, alone: bool, n: nat)
    requires db.state.Cancelled? && (l.Fetched? || l.Prepared?) && Within(env, db, l, alone, n)
    ensures Within(env, Continue(env, db, l).0, Continue(env, db, l).1, alone, n)
  {
    if l.Fetched? {
      if l.run.state.Queued? {
        assert Prepare(db, l.run).1 == Raised;
      } else {
        assert Continue(env, db, l) == (db, Prepared(l.run));
      }
    }
  }

  lemma PlannedStays(env: Env, db: Db, l: Local, alone: bool, n: nat)
    requires db.state.Cancelled? && l.Planned? && Within(env, db, l, alone, n)
    ensures Within(env, Continue(env, db, l).0, Continue(env, db, l).1, alone, n)
  {
    var next := Continue(env, db, l);
    if l.run.state.Preparing? || l.run.state.Retrieving? {
      InitializedElsewhere(env, db, l.run, l.queries);
    } else {
      assert next == (db, Opening(l.run.state, l.queries));
    }
  }

  lemma InitializedElsewhere(env: Env, db: Db, run: RunView, queries: Queries)
    requires db.state.Cancelled? && (run.state.Preparing? || run.state.Retrieving?)
    ensures var next := Initialize(env, db, run, queries).1;
            !JudgeStanding(next) || next == Opening(RunState.Cancelled, queries)
  {}

  lemma OpeningStays(env: Env, db: Db, l: Local, alone: bool, n: nat)
    requires db.state.Cancelled? && l.Opening? && Within(env, db, l, alone, n)
    ensures Within(env, Continue(env, db, l).0, Continue(env, db, l).1, alone, n)
  {
    var next := Open(env, db, l.state, l.queries);
    if next.1.InJudging? {
      assert next == (db, InJudging(l.queries, db.rows, AnswerWork(env, l.queries)));
      AheadIsAtMost(env, db.rows, AnswerWork(env, l.queries));
    } else {
      assert !JudgeStanding(next.1);
    }
  }

  lemma JudgingStays(env: Env, db: Db, l: Local, alone: bool, n: nat)
    requires db.state.Cancelled? && l.InJudging? && Within(env, db, l, alone, n)
    ensures Within(env, Continue(env, db, l).0, Continue(env, db, l).1, alone, n)
  {
    var next := JudgeNext(env, db, l);
    if l.work == [] {
      MovesAreRefused(db, Scoring, l.queries);
    } else if !HasAnswer(l.persisted, l.work[0]) {
      assert next.1 == Raised;
    } else if AwaitsVerdicts(env, l) {
      assert next == (db, l);
    } else {
      assert next.1 == InJudging(l.queries, l.persisted, l.work[1..]);
    }
  }

  lemma JudgedStays(env: Env, db: Db, l: Local, alone: bool, n: nat)
    requires l.Judged? && l.work != [] && Within(env, db, l, alone, n)
    ensures Within(env, Continue(env, db, l).0, Continue(env, db, l).1, alone, n)
  {
    var next := StoreVerdicts(db, l).1;
    assert next == Raised || next == InJudging(l.queries, l.persisted, l.work[1..]);
  }

  lemma ContinueStays(env: Env, db: Db, l: Local, alone: bool, n: nat)
    requires LocalInvariant(env, db, l) && db.state.Cancelled? && Within(env, db, l, alone, n)
    ensures Within(env, Continue(env, db, l).0, Continue(env, db, l).1, alone, n)
  {
    var next := Continue(env, db, l);
    match l
    case Fetched(_) => FetchedStays(env, db, l, alone, n);
    case Prepared(_) => FetchedStays(env, db, l, alone, n);
    case Planned(_, _) => PlannedStays(env, db, l, alone, n);
    case Opening(_, _) => OpeningStays(env, db, l, alone, n);
    case InJudging(_, _, _) => JudgingStays(env, db, l, alone, n);
    case Judged(_, _, _, _) => JudgedStays(env, db, l, alone, n);
    case _ =>
      if l.Idle? || l.Raised? || l.MarkingFailed? {
        EarlyStays(env, db, l);
      } else if l.Closing? || l.InGeneration? || l.Asking? || l.Drafted? {
        GenerationStays(env, db, l);
      } else {
        RetrievalStays(env, db, l);
      }
      NothingAheadElsewhere(env, next.0, next.1, alone, n);
  }

  /** The step's calls come out of the n that lay ahead, and what is left lies ahead of the next standing. */
  ghost predicate PaysFor(env: Env, db: Db, l: Local, action: Action, alone: bool, n: nat) {
    var cost, next := JudgeCalls(env, db, l, action), Next(env, db, l, action);
    cost <= n && Within(env, next.0, next.1, alone, n - cost)
  }

  lemma ProceedPays(env: Env, db: Db, l: Local, alone: bool, n: nat)
    requires LocalInvariant(env, db, l) && db.state.Cancelled? && Within(env, db, l, alone, n)
    ensures PaysFor(env, db, l, Proceed, alone, n)
  {
    ContinueStays(env, db, l, alone, n);
    ProceedIsFree(env, db, l);
    FreeStepPays(env, db, l, Proceed, alone, n);
  }

  lemma ProceedIsFree(env: Env, db: Db, l: Local)
    ensures JudgeCalls(env, db, l, Proceed) == 0 && Next(env, db, l, Proceed) == Continue(env, db, l)
  {}

  lemma FreeStepPays(env: Env, db: Db, l: Local, action: Action, alone: bool, n: nat)
    requires JudgeCalls(env, db, l, action) == 0
    requires Within(env, Next(env, db, l, action).0, Next(env, db, l, action).1, alone, n)
    ensures PaysFor(env, db, l, action, alone, n)
  {}

  lemma AskingPays(env: Env, db: Db, l: Local, action: Action, alone: bool, n: nat)
    requires AwaitsVerdicts(env, l) && Within(env, db, l, alone, n) && !action.Proceed?
    ensures PaysFor(env, db, l, action, alone, n)
  {
    var head, next := CallsFor(env, l.persisted[l.work[0]]), Next(env, db, l, action).1;
    assert VerdictsAhead(env, l.persisted, l.work) == head + VerdictsAhead(env, l.persisted, l.work[1..]);
    if action.Judge? && AsksMissing(env, l, action.verdicts) {
      assert next == Judged(l.queries, l.persisted, l.work, action.verdicts);
    } else if Interrupts(action) {
      assert next.Idle? || next.Raised?;
    } else {
      assert next == l;
    }
  }

  lemma LoadPays(env: Env, db: Db, l: Local, action: Action, alone: bool, n: nat)
    requires action.Load? && action.dataset in env.versions && Within(env, db, l, alone, n)
    ensures PaysFor(env, db, l, action, alone, n)
  {
    if l.Prepared? {
      var next := Plan(env, l.run, action.dataset, action.currentHashes);
      if next.Planned? {
        assert Selectable(env, next.queries);
      } else {
        assert next == Raised;
      }
    }
  }

  lemma OutsideStays(env: Env, db: Db, l: Local, action: Action, alone: bool, n: nat)
    requires !action.Proceed? && !action.Load? && !AwaitsVerdicts(env, l) && Within(env, db, l, alone, n)
    ensures Within(env, db, Next(env, db, l, action).1, alone, n)
  {
    var next := Next(env, db, l, action).1;
    if action.Judge? {
      assert AsksMissing(env, l, action.verdicts) ==> AwaitsVerdicts(env, l);
      assert next == l;
    } else if next != l {
      assert !JudgeStanding(next);
    }
  }

  lemma OutsidePays(env: Env, db: Db, l: Local, action: Action, alone: bool, n: nat)
    requires !action.Proceed? && !action.Load? && !AwaitsVerdicts(env, l) && Within(env, db, l, alone, n)
    ensures PaysFor(env, db, l, action, alone, n)
  {
    OutsideStays(env, db, l, action, alone, n);
    assert Next(env, db, l, action).0 == db;
  }

  lemma JudgeStepPays(env: Env, db: Db, l: Local, action: Action, alone: bool, n: nat)
    requires LocalInvariant(env, db, l) && db.state.Cancelled? && Within(env, db, l, alone, n)
    requires action.Load? ==> action.dataset in env.versions
    ensures PaysFor(env, db, l, action, alone, n)
  {
    if action.Proceed? {
      ProceedPays(env, db, l, alone, n);
    } else if AwaitsVerdicts(env, l) {
      AskingPays(env, db, l, action, alone, n);
    } else if action.Load? {
      LoadPays(env, db, l, action, alone, n);
    } else {
      OutsidePays(env, db, l, action, alone, n);
    }
  }

  // ---- All further events ----

  predicate OnlySteps(more: seq<Event>, r: RunnerId) {
    forall e <- more :: e.Step? && e.runner == r
  }

  lemma EventPays(env: Env, world: World, more: seq<Event>, r: RunnerId, alone: bool, n: nat)
    requires ValidEnv(env) && WasCancelled(env, world) && Possible(env, more) && more != []
    requires Within(env, world.db, world.At(r), alone, n) && (alone ==> OnlySteps(more, r))
    ensures var next, cost := Apply(env, world, more[0]), EventCost(env, world, more[0], r, JudgeCalls);
            cost <= n && Within(env, next.db, next.At(r), alone, n - cost)
  {
    Standing(env, world, r);
    assert more[0] in more;
    if more[0].Step? && more[0].runner == r {
      OwnStep(env, world, more[0]);
      JudgeStepPays(env, world.db, world.At(r), more[0].action, alone, n);
    } else {
      StaysCancelled(env, world, more);
      OthersLeaveStanding(env, world, more[0], r);
      WithinKept(env, world.db, Apply(env, world, more[0]).db, world.At(r), n);
    }
  }

  lemma {:induction false} VerdictsPay(env: Env, world: World, more: seq<Event>, r: RunnerId, alone: bool, n: nat)
    requires ValidEnv(env) && WasCancelled(env, world) && Possible(env, more)
    requires Within(env, world.db, world.At(r), alone, n) && (alone ==> OnlySteps(more, r))
    ensures Total(env, world, more, r, JudgeCalls) <= n
    decreases |more|
  {
    if more != [] {
      var next, cost := Apply(env, world, more[0]), EventCost(env, world, more[0], r, JudgeCalls);
      StaysCancelled(env, world, more);
      EventPays(env, world, more, r, alone, n);
      assert forall e <- more[1..] :: e in more;
      VerdictsPay(env, next, more[1..], r, alone, n - cost);
    }
  }

  /**
   * After a cancellation, whatever else happens, a runner asks for no more verdicts than lie ahead of it in the judge
   * stage, and for none from anywhere else.
   */
  lemma VerdictsAfterCancellation(env: Env, world: World, more: seq<Event>, r: RunnerId, n: nat)
    requires ValidEnv(env) && Reachable(env, world) && world.db.state.Cancelled? && Possible(env, more)
    ensures Within(env, world.db, world.At(r), false, n) ==> Total(env, world, more, r, JudgeCalls) <= n
    ensures !JudgeStanding(world.At(r)) ==> Total(env, world, more, r, JudgeCalls) == 0
  {
    ReachableIsSound(env, world);
    if Within(env, world.db, world.At(r), false, n) {
      VerdictsPay(env, world, more, r, false, n);
    }
    if !JudgeStanding(world.At(r)) {
      NothingAheadElsewhere(env, world.db, world.At(r), false, 0);
      VerdictsPay(env, world, more, r, false, 0);
    }
  }

  // ---- Exactly when a cancelled run is still judged ----

  /** Left alone, the runner can go on to ask for a verdict. */
  ghost predicate CanStillAsk(env: Env, world: World, r: RunnerId) {
    exists more :: Possible(env, more) && OnlySteps(more, r) && Total(env, world, more, r, JudgeCalls) > 0
  }

  lemma StepThenAsk(env: Env, world: World, r: RunnerId, action: Action)
    requires CanStillAsk(env, Apply(env, world, Step(r, action)), r)
    requires action.Load? ==> action.dataset in env.versions
    ensures CanStillAsk(env, world, r)
  {
    var next := Apply(env, world, Step(r, action));
    var more :| Possible(env, more) && OnlySteps(more, r) && Total(env, next, more, r, JudgeCalls) > 0;
    var all := [Step(r, action)] + more;
    assert all[0] == Step(r, action) && all[1..] == more;
    assert Possible(env, all) && OnlySteps(all, r);
    assert Total(env, world, all, r, JudgeCalls) > 0;
  }

  /** Any set of profiles can be answered for with one verdict each. */
  lemma {:induction false} VerdictsFor(profiles: set<Profile>) returns (verdicts: seq<JudgeRecord>)
    ensures Profiles(verdicts) == profiles && DistinctProfiles(verdicts)
  {
    if profiles == {} {
      verdicts := [];
    } else {
      var p :| p in profiles;
      var record := JudgeRecord(p, JudgeVerdict(1.0, 1.0, NO_USAGE));
      var rest := VerdictsFor(profiles - {p});
      AppendedProfiles(rest, record);
      verdicts := rest + [record];
    }
  }

  lemma AskNow(env: Env, world: World, r: RunnerId)
    requires AwaitsVerdicts(env, world.At(r))
    ensures CanStillAsk(env, world, r)
  {
    var l := world.At(r);
    var row := l.persisted[l.work[0]];
    var verdicts := VerdictsFor(MissingProfiles(env.spec, row));
    CallsForExactly(env, row);
    var more := [Step(r, Judge(verdicts))];
    assert AsksMissing(env, l, verdicts) && more[0].runner == r;
    assert EventCost(env, world, more[0], r, JudgeCalls) == CallsFor(env, row) > 0;
    assert Total(env, world, more, r, JudgeCalls) > 0;
    assert Possible(env, more) && OnlySteps(more, r);
  }

  lemma Stepped(env: Env, world: World, r: RunnerId, action: Action, db: Db, l: Local) returns (next: World)
    requires Next(env, world.db, world.At(r), action) == (db, l)
    ensures next == Apply(env, world, Step(r, action)) && next.db == db && next.At(r) == l
  {
    next := Apply(env, world, Step(r, action));
  }

  lemma {:induction false} AskFromJudging(env: Env, world: World, r: RunnerId)
    requires world.At(r).InJudging? && VerdictsAhead(env, world.At(r).persisted, world.At(r).work) > 0
    ensures CanStillAsk(env, world, r)
    decreases |world.At(r).work|
  {
    var l := world.At(r);
    if AwaitsVerdicts(env, l) {
      AskNow(env, world, r);
    } else {
      CallsForExactly(env, l.persisted[l.work[0]]);
      var next := Apply(env, world, Step(r, Proceed));
      assert JudgeNext(env, world.db, l) == (world.db, InJudging(l.queries, l.persisted, l.work[1..]));
      OwnStep(env, world, Step(r, Proceed));
      AskFromJudging(env, next, r);
      StepThenAsk(env, world, r, Proceed);
    }
  }

  lemma AskFromJudged(env: Env, world: World, r: RunnerId)
    requires Sound(env, world) && world.At(r).Judged? && !Within(env, world.db, world.At(r), true, 0)
    ensures CanStillAsk(env, world, r)
  {
    var l := world.At(r);
    Standing(env, world, r);
    OwnStep(env, world, Step(r, Proceed));
    assert StoreVerdicts(world.db, l).1 == InJudging(l.queries, l.persisted, l.work[1..]);
    AskFromJudging(env, Apply(env, world, Step(r, Proceed)), r);
    StepThenAsk(env, world, r, Proceed);
  }

  lemma AskFromOpening(env: Env, world: World, r: RunnerId)
    requires world.At(r).Opening? && !Within(env, world.db, world.At(r), true, 0)
    ensures CanStillAsk(env, world, r)
  {
    var l := world.At(r);
    var judging := InJudging(l.queries, world.db.rows, AnswerWork(env, l.queries));
    assert Open(env, world.db, l.state, l.queries) == (world.db, judging);
    var next := Stepped(env, world, r, Proceed, world.db, judging);
    AskFromJudging(env, next, r);
    StepThenAsk(env, world, r, Proceed);
  }

  lemma AskFromPlanned(env: Env, world: World, r: RunnerId)
    requires world.At(r).Planned? && !Within(env, world.db, world.At(r), true, 0)
    ensures CanStillAsk(env, world, r)
  {
    var l := world.At(r);
    assert Initialize(env, world.db, l.run, l.queries) == (world.db, Opening(l.run.state, l.queries));
    assert !Within(env, world.db, Opening(l.run.state, l.queries), true, 0);
    var next := Stepped(env, world, r, Proceed, world.db, Opening(l.run.state, l.queries));
    AskFromOpening(env, next, r);
    StepThenAsk(env, world, r, Proceed);
  }

  lemma LoadPlans(env: Env, db: Db, run: RunView, queries: Queries) returns (load: Action)
    requires Selectable(env, queries)
    ensures load.Load? && load.dataset in env.versions
    ensures Next(env, db, Prepared(run), load) == (db, Planned(run, queries))
  {
    var d :| d in env.versions && Select(env, d) == Ok(queries) && queries != [];
    load := Load(d, env.variantHashes);
  }

  /** Some selection of the dataset's versions leaves the fetched run with verdicts ahead. */
  lemma SomeSelection(env: Env, db: Db, run: RunView) returns (queries: Queries)
    requires !Within(env, db, Prepared(run), true, 0)
    ensures Selectable(env, queries) && !Within(env, db, Planned(run, queries), true, 0)
  {
    queries := OneOpens(env, db, run.state);
  }

  lemma OneOpens(env: Env, db: Db, state: RunState) returns (queries: Queries)
    requires !AnyOpens(env, db, state, true, 0)
    ensures Selectable(env, queries) && !Opens(env, db, state, queries, true, 0)
  {
    queries :| Selectable(env, queries) && !Opens(env, db, state, queries, true, 0);
  }

  lemma AskFromPrepared(env: Env, world: World, r: RunnerId, run: RunView)
    requires world.At(r) == Prepared(run) && !Within(env, world.db, Prepared(run), true, 0)
    ensures CanStillAsk(env, world, r)
  {
    var queries := SomeSelection(env, world.db, run);
    var load := LoadPlans(env, world.db, run, queries);
    var next := Stepped(env, world, r, load, world.db, Planned(run, queries));
    AskFromPlanned(env, next, r);
    StepThenAsk(env, world, r, load);
  }

  lemma FetchedIsPrepared(env: Env, db: Db, run: RunView)
    requires !Within(env, db, Fetched(run), true, 0)
    ensures !Within(env, db, Prepared(run), true, 0) && Prepare(db, run) == (db, Prepared(run))
  {}

  lemma AskFromFetched(env: Env, world: World, r: RunnerId, run: RunView)
    requires world.At(r) == Fetched(run) && !Within(env, world.db, Fetched(run), true, 0)
    ensures CanStillAsk(env, world, r)
  {
    FetchedIsPrepared(env, world.db, run);
    var next := Stepped(env, world, r, Proceed, world.db, Prepared(run));
    AskFromPrepared(env, next, r, run);
    StepThenAsk(env, world, r, Proceed);
  }

  /**
   * A runner of a cancelled run goes on to ask for verdicts exactly from a standing with verdicts ahead: in the judge
   * stage, or on its way there, with a judgeable row still lacking a profile before any row without an answer.
   */
  lemma CancelledRunsAreJudgedExactly(env: Env, world: World, r: RunnerId)
    requires ValidEnv(env) && Reachable(env, world) && world.db.state.Cancelled?
    ensures CanStillAsk(env, world, r) <==> !Within(env, world.db, world.At(r), true, 0)
  {
    ReachableIsSound(env, world);
    if Within(env, world.db, world.At(r), true, 0) {
      forall more | Possible(env, more) && OnlySteps(more, r) ensures Total(env, world, more, r, JudgeCalls) == 0 {
        VerdictsPay(env, world, more, r, true, 0);
      }
    } else {
      match world.At(r)
      case Fetched(run) => AskFromFetched(env, world, r, run);
      case Prepared(run) => AskFromPrepared(env, world, r, run);
      case Planned(_, _) => AskFromPlanned(env, world, r);
      case Opening(_, _) => AskFromOpening(env, world, r);
      case InJudging(_, _, _) => AskFromJudging(env, world, r);
      case Judged(_, _, _, _) => AskFromJudged(env, world, r);
    }
  }
}
