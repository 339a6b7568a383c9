/** A runner as a process: its locals are fields, and each step commits through the repository in place. */
module EvaluationProcess {
  import opened Prelude
  import opened EvaluationContract
  import opened EvaluationStore
  import opened EvaluationPlan
  import opened EvaluationRunner

  class Process {
    const env: Env
    const store: Repository
    var local: Local

    constructor (env: Env, store: Repository)
      requires store.spec == env.spec
      ensures this.env == env && this.store == store && local == Idle
    {
      this.env := env;
      this.store := store;
      local := Idle;
    }

    /** After a transaction: raise its error, or go on at `next`. */
    method Resume(error: Option<StoreError>, next: Local)
      modifies this`local
      ensures local == if error.None? then next else Raised
    {
      local := if error.None? then next else Raised;
    }

    method StartRetrieval()
      requires store.spec == env.spec && (local.Fetched? || local.Planned? || local.Progressed?)
      modifies this`local, store
      ensures (store.Contents(), local) == Continue(env, old(store.Contents()), old(local))
    {
      match local
      case Fetched(run) =>
        if run.state.Queued? {
          var error := store.SetState(Preparing);
          Resume(error, Prepared(View(store.Contents())));
        } else {
          local := Prepared(run);
        }
      case Planned(run, queries) =>
        if run.state.Preparing? || run.state.Retrieving? {
          var error := store.SetProgress(run.completed, TotalWork(env, queries));
          Resume(error, if run.state.Preparing? then Progressed(queries, run.pinned)
                        else Dispatch(store.state, queries, run.pinned));
        } else {
          local := Dispatch(run.state, queries, run.pinned);
        }
      case Progressed(queries, pinned) =>
        var error := store.SetState(Retrieving);
        Resume(error, Entering(queries, pinned));
    }

    method StoreSearch()
      requires store.spec == env.spec && (local.Found? || local.Stamped?)
      modifies this`local, store
      ensures (store.Contents(), local) == Continue(env, old(store.Contents()), old(local))
    {
      if local.todo == [] || !local.todo[0].Search? { return; }
      var work, response := local.todo[0].work, local.response;
      if local.Found? {
        var error := store.PinIndexFingerprint(work.variant, response.indexFingerprint);
        Resume(error, Stamped(local.queries, local.pinned[work.variant := response.indexFingerprint], local.done,
                              local.todo, response));
      } else {
        var _, error := store.AddResult(work, NewRow(response.ranking, response.scores));
        Resume(error, InRetrieval(local.queries, local.pinned, local.done, local.todo[1..]));
      }
    }

    method StoreAnswerOrVerdicts()
      requires store.spec == env.spec && (local.Drafted? || local.Judged?)
      modifies this`local, store
      ensures (store.Contents(), local) == Continue(env, old(store.Contents()), old(local))
    {
      if local.work == [] { return; }
      if local.Drafted? {
        var error := store.UpdateAnswer(local.work[0], local.answer, AnswerScores(local.metrics), local.goldLabel);
        Resume(error, InGeneration(local.queries, local.persisted, local.work[1..]));
      } else {
        var error := store.UpdateJudges(local.work[0], local.verdicts);
        Resume(error, InJudging(local.queries, local.persisted, local.work[1..]));
      }
    }

    method ChangeStage(target: RunState, next: Local)
      modifies this`local, store
      ensures (store.Contents(), local)
              == Commit(old(store.Contents()), AfterState(old(store.Contents()), target), after => next)
    {
      var error := store.SetState(target);
      Resume(error, next);
    }

    /** The generation loop: end it, skip an answered item, or look for a cancellation before asking. */
    method WalkAnswers()
      requires store.spec == env.spec && local.InGeneration?
      modifies this`local, store
      ensures (store.Contents(), local) == Generate(env, old(store.Contents()), old(local))
    {
      if local.work == [] {
        ChangeStage(AfterGeneration(env.spec), Opening(AfterGeneration(env.spec), local.queries));
        return;
      }
      var work := local.work[0];
      if work !in local.persisted {
        local := Raised;
      } else if local.persisted[work].answer.Some? {
        local := InGeneration(local.queries, local.persisted, local.work[1..]);
      } else if store.state.Cancelled? {
        local := Idle;
      } else {
        local := Asking(local.queries, local.persisted, local.work);
      }
    }

    /** The judge loop: end it, skip an item that needs no verdict, or stand still to ask. */
    method WalkVerdicts()
      requires store.spec == env.spec && local.InJudging?
      modifies this`local, store
      ensures (store.Contents(), local) == JudgeNext(env, old(store.Contents()), old(local))
    {
      if local.work == [] {
        ChangeStage(Scoring, Opening(Scoring, local.queries));
        return;
      }
      var work := local.work[0];
      if work !in local.persisted {
        local := Raised;
        return;
      }
      var row := local.persisted[work];
      if row.answer.None? {
        local := Raised;
      } else if !Judgeable(row) || forall p <- env.spec.judgeProfiles :: p in Profiles(row.judgeRecords) {
        NothingMissing(env.spec, row);
        local := InJudging(local.queries, local.persisted, local.work[1..]);
      } else {
        NothingMissing(env.spec, row);
      }
    }

    method Close()
      requires store.spec == env.spec && local.Closing?
      modifies this`local, store
      ensures (store.Contents(), local) == Continue(env, old(store.Contents()), old(local))
    {
      ChangeStage(AfterRetrieval(env.spec), Opening(AfterRetrieval(env.spec), local.queries));
    }

    method OpenStage()
      requires store.spec == env.spec && local.Opening?
      modifies this`local, store
      ensures (store.Contents(), local) == Open(env, old(store.Contents()), old(local.state), old(local.queries))
    {
      var queries := local.queries;
      var sample := GenerationQueries(env, queries);
      if sample.Err? {
        local := Raised;
        return;
      }
      match local.state
      case Generating =>
        local := InGeneration(queries, store.rows, WorkList(sample.value, env.spec.AnsweredVariants()));
      case Judging =>
        local := InJudging(queries, store.rows, WorkList(sample.value, env.spec.AnsweredVariants()));
      case Scoring => ChangeStage(Completed, Idle);
      case _ => local := Idle;
    }

    /** The retrieval loop: end it, look for a cancellation, skip stored work, or stand still to search. */
    method WalkQueries()
      requires local.InRetrieval?
      modifies this`local
      ensures local == Retrieved(env, store.Contents(), old(local))
    {
      var todo := local.todo;
      if todo == [] {
        if store.state.Cancelled? {
          local := Idle;
        } else if store.completedQueries != TotalWork(env, local.queries) {
          local := Raised;
        } else if exists v <- env.spec.variants :: v !in store.indexFingerprints {
          UnpinnedVariants(env.spec, store.indexFingerprints);
          local := Raised;
        } else {
          UnpinnedVariants(env.spec, store.indexFingerprints);
          local := Closing(local.queries);
        }
      } else if todo[0].CheckCancelled? && store.state.Cancelled? {
        local := Idle;
      } else if todo[0].CheckCancelled? || todo[0].work in local.done {
        local := InRetrieval(local.queries, local.pinned, local.done, todo[1..]);
      }
    }

    /** What a search returned is checked against the run's configuration and the pin known for its variant. */
    method ReceiveSearch(response: Response)
      requires local.InRetrieval? && local.todo != [] && local.todo[0].Search?
      modifies this`local
      ensures local == Receive(env, old(local), response)
    {
      var v := local.todo[0].work.variant;
      if v !in env.variantHashes || response.variantHash != env.variantHashes[v] {
        local := Raised;
      } else if v !in local.pinned {
        local := Found(local.queries, local.pinned, local.done, local.todo, response);
      } else if local.pinned[v] != response.indexFingerprint {
        local := Raised;
      } else {
        local := Stamped(local.queries, local.pinned, local.done, local.todo, response);
      }
    }

    method LoadDataset(dataset: Queries, currentHashes: map<Variant, Hash>)
      requires local.Prepared?
      modifies this`local
      ensures local == Plan(env, old(local).run, dataset, currentHashes)
    {
      var queries := Select(env, dataset);
      if queries.Err? || queries.value == [] || currentHashes != env.variantHashes {
        local := Raised;
      } else {
        local := Planned(local.run, queries.value);
      }
    }

    /** Outside the run: begin one that is due, or deal with an exception. */
    method Wake()
      requires local.Idle? || local.Raised?
      modifies this`local
      ensures (store.Contents(), local) == Continue(env, store.Contents(), old(local))
    {
      if local.Raised? {
        local := if store.state.Terminal() then Idle else MarkingFailed;
      } else if !store.state.Terminal() && !store.state.Created? {
        local := Fetched(RunView(store.state, store.completedQueries, store.indexFingerprints));
      }
    }

    /** Record the failure unless the run has ended already; an error in doing so is lost with the process. */
    method MarkFailure()
      requires local.MarkingFailed?
      modifies this`local, store
      ensures (store.Contents(), local) == Continue(env, old(store.Contents()), old(local))
    {
      var _ := store.SetState(Failed);
      local := Idle;
    }

    /** The runner goes on by itself. */
    method Go()
      requires store.spec == env.spec
      modifies this`local, store
      ensures (store.Contents(), local) == Continue(env, old(store.Contents()), old(local))
    {
      match local
      case Idle => Wake();
      case Raised => Wake();
      case MarkingFailed => MarkFailure();
      case Fetched(_) => StartRetrieval();
      case Planned(_, _) => StartRetrieval();
      case Progressed(_, _) => StartRetrieval();
      case Entering(queries, pinned) =>
        local := InRetrieval(queries, pinned, store.rows.Keys, Program(queries, env.spec.variants));
      case InRetrieval(_, _, _, _) => WalkQueries();
      case Found(_, _, _, _, _) => StoreSearch();
      case Stamped(_, _, _, _, _) => StoreSearch();
      case Closing(_) => Close();
      case Opening(_, _) => OpenStage();
      case InGeneration(_, _, _) => WalkAnswers();
      case Drafted(_, _, _, _, _, _) => StoreAnswerOrVerdicts();
      case InJudging(_, _, _) => WalkVerdicts();
      case Judged(_, _, _, _) => StoreAnswerOrVerdicts();
      case Prepared(_) =>
      case Asking(_, _, _) =>
    }

    /** Something arrives from outside, or ends the runner. */
    method React(action: Action)
      requires !action.Proceed?
      modifies this`local
      ensures (store.Contents(), local) == Next(env, store.Contents(), old(local), action)
    {
      match action
      case Load(dataset, currentHashes) => if local.Prepared? { LoadDataset(dataset, currentHashes); }
      case Retrieve(response) =>
        if local.InRetrieval? && local.todo != [] && local.todo[0].Search? && local.todo[0].work !in local.done {
          ReceiveSearch(response);
        }
      case Answer(answer, metrics, goldLabel) =>
        if local.Asking? {
          local := Drafted(local.queries, local.persisted, local.work, answer, metrics, goldLabel);
        }
      case Judge(verdicts) =>
        if AsksMissing(env, local, verdicts) {
          local := Judged(local.queries, local.persisted, local.work, verdicts);
        }
      case Fail => local := if local.Idle? || InHandler(local) then Idle else Raised;
      case Crash => local := Idle;
    }

    /** One step of the runner in place, exactly as the step function describes it. */
    method Step(action: Action)
      requires store.spec == env.spec
      modifies this`local, store
      ensures (store.Contents(), local) == Next(env, old(store.Contents()), old(local), action)
    {
      if action.Proceed? { Go(); } else { React(action); }
    }

    /** A whole life of the process, one action after the other. */
    method Run(actions: seq<Action>)
      requires store.spec == env.spec
      modifies this`local, store
      ensures (store.Contents(), local) == After(env, old(store.Contents()), old(local), actions)
    {
      for i := 0 to |actions|
        invariant (store.Contents(), local) == After(env, old(store.Contents()), old(local), actions[..i])
      {
        assert actions[..i + 1][..i] == actions[..i];
        Step(actions[i]);
      }
      assert actions[..|actions|] == actions;
    }
  }

  lemma NothingMissing(spec: EvalRunSpec, row: ResultRow)
    ensures MissingProfiles(spec, row) == {} <==> forall p <- spec.judgeProfiles :: p in Profiles(row.judgeRecords)
  {
    assert forall p <- spec.judgeProfiles :: p in Profiles(row.judgeRecords) || p in MissingProfiles(spec, row);
  }

  lemma UnpinnedVariants(spec: EvalRunSpec, pinned: map<Variant, Fingerprint>)
    ensures ToSet(spec.variants) - pinned.Keys == {} <==> forall v <- spec.variants :: v in pinned
  {
    assert forall v <- spec.variants :: v in pinned || v in ToSet(spec.variants) - pinned.Keys;
  }

  function After(env: Env, db: Db, l: Local, actions: seq<Action>): (Db, Local) {
    if actions == [] then (db, l)
    else
      var (before, local) := After(env, db, l, actions[..|actions| - 1]);
      Next(env, before, local, actions[|actions| - 1])
  }
}
