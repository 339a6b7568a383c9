/**
 * The runner as the handler of a leased job: a worker that holds the job runs it, a worker that dies or loses the lease
 * takes its runner with it. With renewals in time this is one runner at a time.
 */
module LeasedRunner {
  import opened EvaluationContract
  import opened EvaluationStore
  import opened EvaluationPlan
  import opened EvaluationRunner
  import opened RunnerHistory
  import opened RunnerCancellation
  import opened RunnerSolo
  import JobWorkers
  import JobQueue

  type WorkerId = JobQueue.WorkerId

  /** The job table and its workers, the run's tables, and the runners of the workers that are running the job. */
  datatype Fleet = Fleet(
    system: JobWorkers.System, db: Db, runners: map<WorkerId, Local>, origin: map<Work, Response>)

  /** Which job is the run's, and how the leases are timed. */
  datatype Setting = Setting(env: Env, job: JobQueue.JobId, timing: JobWorkers.Timing)

  datatype FleetEvent =
    | Queue(event: JobWorkers.Event)
    | Act(worker: WorkerId, action: Action)
    | EnqueueRun
    | CancelRun

  predicate Running(s: Setting, f: Fleet, w: WorkerId) {
    JobWorkers.Live(f.system, w, s.job)
  }

  /** A worker that has just claimed the job begins anew. */
  function RunnerOf(f: Fleet, w: WorkerId): Local {
    if w in f.runners then f.runners[w] else Idle
  }

  predicate Possible(s: Setting, f: Fleet, event: FleetEvent) {
    match event
    case Queue(e) => JobWorkers.Enabled(s.timing, f.system, e)
    case Act(w, action) => Running(s, f, w) && (action.Load? ==> action.dataset in s.env.versions)
    case EnqueueRun => true
    case CancelRun => true
  }

  /** Only a worker that keeps running the job keeps its runner. */
  function After(s: Setting, f: Fleet, event: FleetEvent): Fleet
    requires Possible(s, f, event)
  {
    match event
    case Queue(e) =>
      var system := JobWorkers.Next(s.timing, f.system, e);
      Fleet(system, f.db,
            map w | w in f.runners && Running(s, f, w) && JobWorkers.Live(system, w, s.job) :: f.runners[w], f.origin)
    case Act(w, action) =>
      var (db, l) := Next(s.env, f.db, RunnerOf(f, w), action);
      Fleet(f.system, db, f.runners[w := l], OriginAfter(f.db, db, RunnerOf(f, w), f.origin))
    case EnqueueRun => f.(db := Attempt(f.db, RunState.Queued))
    case CancelRun => f.(db := Attempt(f.db, RunState.Cancelled))
  }

  ghost predicate FleetHistory(s: Setting, events: seq<FleetEvent>, fleets: seq<Fleet>) {
    && |fleets| == |events| + 1
    && fleets[0] == Fleet(JobWorkers.System([], fleets[0].system.now, map[]), EMPTY_RUN.db, map[], map[])
    && forall i :: 0 <= i < |events| ==>
        Possible(s, fleets[i], events[i]) && fleets[i + 1] == After(s, fleets[i], events[i])
  }

  // ---- Told as a history of one runner ----

  /** The lone runner stands where the running worker's runner does, and nowhere if no worker runs the job. */
  ghost predicate Tells(s: Setting, f: Fleet, world: World) {
    && world.db == f.db && world.origin == f.origin
    && (forall w :: Running(s, f, w) ==> world.At(ALONE) == RunnerOf(f, w))
    && ((forall w :: !Running(s, f, w)) ==> world.At(ALONE) == Idle)
    && (forall w <- f.runners :: Running(s, f, w))
  }

  ghost predicate Sane(s: Setting, f: Fleet, world: World) {
    JobWorkers.Safe(s.timing, f.system) && SoloReachable(s.env, world) && Tells(s, f, world)
  }

  lemma SoloReachableAfter(env: Env, world: World, event: Event)
    requires SoloReachable(env, world) && (event.Step? ==> event.runner == ALONE)
    requires event.Step? && event.action.Load? ==> event.action.dataset in env.versions
    ensures SoloReachable(env, Apply(env, world, event))
  {
    var events :| EvaluationRunner.Possible(env, events) && Solo(events) && Execute(env, events) == world;
    var all := events + [event];
    assert all[..|all| - 1] == events;
    assert EvaluationRunner.Possible(env, all) && Solo(all);
    assert Execute(env, all) == Apply(env, world, event);
  }

  lemma CrashLeavesTables(env: Env, world: World)
    ensures Apply(env, world, Step(ALONE, Crash)).db == world.db
    ensures Apply(env, world, Step(ALONE, Crash)).origin == world.origin
    ensures Apply(env, world, Step(ALONE, Crash)).At(ALONE) == Idle
  {}

  /** A step of the running worker's runner is a step of the lone one. */
  lemma ActIsTold(s: Setting, f: Fleet, world: World, w: WorkerId, action: Action) returns (next: World)
    requires Sane(s, f, world) && Possible(s, f, Act(w, action))
    ensures Sane(s, After(s, f, Act(w, action)), next)
  {
    next := Apply(s.env, world, Step(ALONE, action));
    SoloReachableAfter(s.env, world, Step(ALONE, action));
    ActTells(s, f, world, w, action);
  }

  lemma ActTells(s: Setting, f: Fleet, world: World, w: WorkerId, action: Action)
    requires JobWorkers.Safe(s.timing, f.system) && Tells(s, f, world) && Possible(s, f, Act(w, action))
    ensures Tells(s, After(s, f, Act(w, action)), Apply(s.env, world, Step(ALONE, action)))
  {
    var after, next := After(s, f, Act(w, action)), Apply(s.env, world, Step(ALONE, action));
    assert world.At(ALONE) == RunnerOf(f, w);
    OwnStep(s.env, world, Step(ALONE, action));
    assert next.At(ALONE) == RunnerOf(after, w);
    forall v | Running(s, after, v) ensures v == w {
      assert JobWorkers.Live(f.system, v, s.job) && JobWorkers.Live(f.system, w, s.job);
    }
    assert Running(s, after, w);
  }

  /** A worker that stops running the job is told as a crash; the others change nothing. */
  lemma QueueEventIsTold(s: Setting, f: Fleet, world: World, e: JobWorkers.Event) returns (next: World)
    requires 0.0 <= s.timing.gap < s.timing.lease && Sane(s, f, world) && Possible(s, f, Queue(e))
    ensures Sane(s, After(s, f, Queue(e)), next)
  {
    var after := After(s, f, Queue(e));
    JobWorkers.StepIsSafe(s.timing, f.system, e);
    if w :| Running(s, f, w) && Running(s, after, w) {
      next := world;
      forall v | Running(s, after, v) ensures v == w {
        assert JobWorkers.Live(after.system, v, s.job) && JobWorkers.Live(after.system, w, s.job);
      }
    } else {
      next := Apply(s.env, world, Step(ALONE, Crash));
      SoloReachableAfter(s.env, world, Step(ALONE, Crash));
      CrashLeavesTables(s.env, world);
    }
  }

  lemma AttemptTells(s: Setting, f: Fleet, world: World, target: RunState)
    requires Tells(s, f, world)
    ensures Tells(s, f.(db := Attempt(f.db, target)), world.(db := Attempt(world.db, target)))
  {
    var after := f.(db := Attempt(f.db, target));
    assert forall w :: Running(s, after, w) <==> Running(s, f, w);
    assert forall w :: RunnerOf(after, w) == RunnerOf(f, w);
  }

  lemma EnqueueIsTold(s: Setting, f: Fleet, world: World) returns (next: World)
    requires Sane(s, f, world)
    ensures Sane(s, After(s, f, EnqueueRun), next)
  {
    next := Apply(s.env, world, Enqueue);
    SoloReachableAfter(s.env, world, Enqueue);
    AttemptTells(s, f, world, RunState.Queued);
  }

  lemma CancelIsTold(s: Setting, f: Fleet, world: World) returns (next: World)
    requires Sane(s, f, world)
    ensures Sane(s, After(s, f, CancelRun), next)
  {
    next := Apply(s.env, world, Cancel);
    SoloReachableAfter(s.env, world, Cancel);
    AttemptTells(s, f, world, RunState.Cancelled);
  }

  lemma NothingToldYet(s: Setting, f: Fleet)
    requires f == Fleet(JobWorkers.System([], f.system.now, map[]), EMPTY_RUN.db, map[], map[])
    ensures Sane(s, f, EMPTY_RUN)
  {
    assert EvaluationRunner.Possible(s.env, []) && Solo([]) && Execute(s.env, []) == EMPTY_RUN;
  }

  /**
   * With renewals before the lease runs out, whatever the workers, the queue, the runner and its users do can be told
   * as a history of one runner at a time.
   */
  lemma {:induction false} LeasedHistoriesAreSolo(s: Setting, events: seq<FleetEvent>, fleets: seq<Fleet>, i: nat)
    returns (world: World)
    requires 0.0 <= s.timing.gap < s.timing.lease && FleetHistory(s, events, fleets) && i < |fleets|
    ensures Sane(s, fleets[i], world)
  {
    if i == 0 {
      NothingToldYet(s, fleets[0]);
      world := EMPTY_RUN;
    } else {
      var before := LeasedHistoriesAreSolo(s, events, fleets, i - 1);
      assert Possible(s, fleets[i - 1], events[i - 1]);
      match events[i - 1]
      case Queue(e) => world := QueueEventIsTold(s, fleets[i - 1], before, e);
      case Act(w, action) => world := ActIsTold(s, fleets[i - 1], before, w, action);
      case EnqueueRun => world := EnqueueIsTold(s, fleets[i - 1], before);
      case CancelRun => world := CancelIsTold(s, fleets[i - 1], before);
    }
  }

  // ---- So nothing is paid for twice ----

  /** What the runner is about to ask for is not stored yet. */
  predicate AsksForNew(env: Env, db: Db, l: Local) {
    && (AwaitsSearch(l) ==> l.todo[0].work !in db.rows)
    && (l.Asking? ==> l.work != [] && l.work[0] in db.rows && db.rows[l.work[0]].answer.None?)
    && (AwaitsVerdicts(env, l) ==>
          && l.work[0] in db.rows
          && MissingProfiles(env.spec, l.persisted[l.work[0]]) !! Profiles(db.rows[l.work[0]].judgeRecords))
  }

  lemma StandingAsksForNew(env: Env, db: Db, l: Local)
    requires SoloLocal(db, l)
    ensures AsksForNew(env, db, l)
  {
    if AwaitsSearch(l) { NextSearchIsNew(db, l); }
    if l.Asking? { NextQuestionIsNew(db, l); }
    if AwaitsVerdicts(env, l) { assert l.work[0] in l.work; }
  }

  /**
   * If every renewal lands before the lease runs out, no worker ever searches for work that is committed, asks for an
   * answer that is stored, or asks a judge for a verdict that is, however many workers there are and whichever of them
   * die.
   */
  lemma TimelyRenewalsPayOnce(s: Setting, events: seq<FleetEvent>, fleets: seq<Fleet>, i: nat, w: WorkerId,
                              dataset: Queries, selected: Queries)
    requires 0.0 <= s.timing.gap < s.timing.lease && FleetHistory(s, events, fleets) && i < |fleets|
    requires Frozen(s.env, dataset, selected) && Running(s, fleets[i], w)
    ensures AsksForNew(s.env, fleets[i].db, RunnerOf(fleets[i], w))
  {
    var world := LeasedHistoriesAreSolo(s, events, fleets, i);
    SoloStanding(s.env, world, dataset, selected);
    StandingAsksForNew(s.env, world.db, world.At(ALONE));
  }
}
