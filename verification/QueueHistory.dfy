/** What holds of the job table after every history of enqueues, claims, renewals, results and cancellations. */
module QueueHistory {
  import opened Prelude
  import opened JobQueue

  /** One transaction, or the passing of time. `locked` are the rows other transactions hold just then. */
  datatype Operation =
    | Enqueue(spec: JobSpec)
    | Claim(worker: WorkerId, lease: real, locked: set<JobId>)
    | Heartbeat(job: JobId, worker: WorkerId, lease: real)
    | Complete(job: JobId, worker: WorkerId)
    | Fail(job: JobId, worker: WorkerId, error: string, delay: real)
    | Cancel(job: JobId)
    | Wait(seconds: real)

  /** What workers have achieved: the claims and completions that took effect, oldest first. */
  datatype Entry = Claimed(job: JobId, worker: WorkerId) | Finished(job: JobId, worker: WorkerId)

  datatype State = State(table: Table, now: real, log: seq<Entry>)

  predicate ValidOperation(op: Operation) {
    && (op.Enqueue? ==> op.spec.Valid())
    && (op.Wait? ==> op.seconds >= 0.0)
  }

  // ---- One transaction ----

  ghost predicate Duplicate(table: Table, spec: JobSpec) {
    exists k :: 0 <= k < |table| && spec.idempotencyKey.Some? && HasKey(table, k, spec.idempotencyKey.value)
  }

  /** Any job the claim may return; which of several equally placed ones is the database's choice. */
  ghost predicate MayReturn(table: Table, now: real, locked: set<JobId>, choice: Option<JobId>) {
    var swept := SweptTable(table, now);
    if choice.Some? then IsNext(swept, now, locked, choice.value) else NoneClaimable(swept, now, locked)
  }

  function Try(table: Table, result: Result<Table, QueueError>): Table {
    if result.Ok? then result.value else table
  }

  /** `next` is a state the operation can lead to. */
  ghost predicate Steps(s: State, op: Operation, next: State) {
    match op
    case Enqueue(spec) =>
      && next.now == s.now && next.log == s.log
      && next.table == if Duplicate(s.table, spec) then s.table else s.table + [NewJob(spec, s.now)]
    case Claim(worker, lease, locked) =>
      && next.now == s.now
      && if worker == "" || lease <= 0.0 then next.table == s.table && next.log == s.log
         else exists choice ::
           && MayReturn(s.table, s.now, locked, choice)
           && next.table == AfterClaim(s.table, choice, worker, lease, s.now)
           && next.log == if choice.Some? then s.log + [Claimed(choice.value, worker)] else s.log
    case Heartbeat(j, worker, lease) =>
      && next.now == s.now && next.log == s.log
      && next.table == Try(s.table, AfterHeartbeat(s.table, j, worker, lease, s.now))
    case Complete(j, worker) =>
      var result := AfterComplete(s.table, j, worker);
      && next.now == s.now && next.table == Try(s.table, result)
      && next.log == if result.Ok? then s.log + [Finished(j, worker)] else s.log
    case Fail(j, worker, error, delay) =>
      && next.now == s.now && next.log == s.log
      && next.table == Try(s.table, AfterFail(s.table, j, worker, error, delay, s.now))
    case Cancel(j) =>
      && next.now == s.now && next.log == s.log && next.table == Try(s.table, AfterCancel(s.table, j))
    case Wait(seconds) =>
      next.now == s.now + seconds && next.table == s.table && next.log == s.log
  }

  /** A history: every state follows from the one before by its operation, starting with an empty table. */
  ghost predicate History(operations: seq<Operation>, states: seq<State>) {
    && |states| == |operations| + 1
    && states[0].table == [] && states[0].log == []
    && forall i :: 0 <= i < |operations| ==>
        ValidOperation(operations[i]) && Steps(states[i], operations[i], states[i + 1])
  }

  // ---- Reading the log ----

  function ClaimsOf(log: seq<Entry>, j: JobId): nat {
    if log == [] then 0
    else ClaimsOf(log[..|log| - 1], j) + if log[|log| - 1].Claimed? && log[|log| - 1].job == j then 1 else 0
  }

  function FinishesOf(log: seq<Entry>, j: JobId): nat {
    if log == [] then 0
    else FinishesOf(log[..|log| - 1], j) + if log[|log| - 1].Finished? && log[|log| - 1].job == j then 1 else 0
  }

  /** Whoever claimed the job last. */
  function LastClaimer(log: seq<Entry>, j: JobId): Option<WorkerId> {
    if log == [] then None
    else if log[|log| - 1].Claimed? && log[|log| - 1].job == j then Some(log[|log| - 1].worker)
    else LastClaimer(log[..|log| - 1], j)
  }

  lemma LogGrows(log: seq<Entry>, entry: Entry, j: JobId)
    ensures ClaimsOf(log + [entry], j) == ClaimsOf(log, j) + if entry.Claimed? && entry.job == j then 1 else 0
    ensures FinishesOf(log + [entry], j) == FinishesOf(log, j) + if entry.Finished? && entry.job == j then 1 else 0
    ensures LastClaimer(log + [entry], j)
         == if entry.Claimed? && entry.job == j then Some(entry.worker) else LastClaimer(log, j)
  {
    assert (log + [entry])[..|log|] == log;
  }

  // ---- The invariant of a row ----

  predicate RowInvariant(job: Job, log: seq<Entry>, j: JobId) {
    && job.spec.Valid()
    && job.attempts == ClaimsOf(log, j) <= job.spec.maxAttempts
    && (job.status == Pending ==> job.attempts < job.spec.maxAttempts)
    && (job.status == Leased <==> job.leasedBy.Some?)
    && (job.status == Leased <==> job.leaseExpiresAt.Some?)
    && (job.status == Leased ==> job.leasedBy == LastClaimer(log, j))
    && FinishesOf(log, j) == if job.status == Completed then 1 else 0
  }

  predicate Invariant(s: State) {
    && (forall j :: 0 <= j < |s.table| ==> RowInvariant(s.table[j], s.log, j))
    && (forall e <- s.log :: e.job < |s.table|)
  }

  lemma {:induction false} UnknownJobsHaveNoHistory(log: seq<Entry>, j: JobId)
    requires forall e <- log :: e.job < j
    ensures ClaimsOf(log, j) == 0 && FinishesOf(log, j) == 0
  {
    if log != [] {
      assert log[|log| - 1] in log;
      UnknownJobsHaveNoHistory(log[..|log| - 1], j);
    }
  }

  lemma SweptRow(job: Job, log: seq<Entry>, j: JobId, now: real)
    requires RowInvariant(job, log, j)
    ensures RowInvariant(Swept(job, now), log, j)
  {}

  /** A row that can be claimed after the sweep has an attempt left. */
  lemma ClaimableHasAttempts(job: Job, log: seq<Entry>, j: JobId, now: real)
    requires RowInvariant(job, log, j) && Claimable(Swept(job, now), now)
    ensures Swept(job, now) == job && job.attempts < job.spec.maxAttempts && FinishesOf(log, j) == 0
  {}

  lemma ClaimedRow(job: Job, log: seq<Entry>, j: JobId, worker: WorkerId, lease: real, now: real)
    requires RowInvariant(job, log, j) && job.attempts < job.spec.maxAttempts && FinishesOf(log, j) == 0
    ensures RowInvariant(ClaimedBy(job, worker, lease, now), log + [Claimed(j, worker)], j)
  {
    LogGrows(log, Claimed(j, worker), j);
  }

  lemma OtherRow(job: Job, log: seq<Entry>, j: JobId, entry: Entry)
    requires RowInvariant(job, log, j) && entry.job != j
    ensures RowInvariant(job, log + [entry], j)
  {
    LogGrows(log, entry, j);
  }

  lemma FinishedRow(job: Job, log: seq<Entry>, j: JobId, worker: WorkerId)
    requires RowInvariant(job, log, j) && job.status == Leased
    ensures RowInvariant(Released(job, Completed), log + [Finished(j, worker)], j)
  {
    LogGrows(log, Finished(j, worker), j);
  }

  lemma RowOperations(job: Job, log: seq<Entry>, j: JobId, error: string, lease: real, delay: real, now: real)
    requires RowInvariant(job, log, j)
    ensures job.status == Leased ==> RowInvariant(Renewed(job, lease, now), log, j)
    ensures job.status == Leased ==> RowInvariant(FailedOnce(job, error, delay, now), log, j)
    ensures job.status !in {Completed, Failed} ==> RowInvariant(Released(job, Cancelled), log, j)
  {}

  // ---- Every operation keeps the invariant ----

  lemma EnqueueKeeps(s: State, spec: JobSpec)
    requires Invariant(s) && spec.Valid()
    ensures Invariant(s.(table := s.table + [NewJob(spec, s.now)]))
  {
    UnknownJobsHaveNoHistory(s.log, |s.table|);
  }

  lemma ClaimNoneKeeps(s: State)
    requires Invariant(s)
    ensures Invariant(s.(table := SweptTable(s.table, s.now)))
  {
    forall j | 0 <= j < |s.table| ensures RowInvariant(SweptTable(s.table, s.now)[j], s.log, j) {
      SweptRow(s.table[j], s.log, j, s.now);
    }
  }

  lemma ClaimKeeps(s: State, choice: JobId, worker: WorkerId, lease: real)
    requires Invariant(s) && choice < |s.table| && Claimable(Swept(s.table[choice], s.now), s.now)
    ensures Invariant(State(AfterClaim(s.table, Some(choice), worker, lease, s.now), s.now,
                            s.log + [Claimed(choice, worker)]))
  {
    var table, log := AfterClaim(s.table, Some(choice), worker, lease, s.now), s.log + [Claimed(choice, worker)];
    forall j | 0 <= j < |table| ensures RowInvariant(table[j], log, j) {
      if j == choice {
        ClaimableHasAttempts(s.table[j], s.log, j, s.now);
        ClaimedRow(s.table[j], s.log, j, worker, lease, s.now);
      } else {
        SweptRow(s.table[j], s.log, j, s.now);
        OtherRow(Swept(s.table[j], s.now), s.log, j, Claimed(choice, worker));
      }
    }
  }

  lemma UpdateKeeps(s: State, j: JobId, job: Job)
    requires Invariant(s) && j < |s.table| && RowInvariant(job, s.log, j)
    ensures Invariant(s.(table := s.table[j := job]))
  {}

  lemma CompleteKeeps(s: State, j: JobId, worker: WorkerId)
    requires Invariant(s) && OwnsLease(s.table, j, worker)
    ensures Invariant(State(s.table[j := Released(s.table[j], Completed)], s.now, s.log + [Finished(j, worker)]))
  {
    var table := s.table[j := Released(s.table[j], Completed)];
    forall k | 0 <= k < |table| ensures RowInvariant(table[k], s.log + [Finished(j, worker)], k) {
      if k == j {
        FinishedRow(s.table[j], s.log, j, worker);
      } else {
        OtherRow(s.table[k], s.log, k, Finished(j, worker));
      }
    }
  }

  lemma ClaimStepKeeps(s: State, op: Operation, next: State)
    requires Invariant(s) && op.Claim? && Steps(s, op, next)
    ensures Invariant(next)
  {
    if op.worker != "" && op.lease > 0.0 {
      var choice :| MayReturn(s.table, s.now, op.locked, choice)
                    && next.table == AfterClaim(s.table, choice, op.worker, op.lease, s.now)
                    && next.log == if choice.Some? then s.log + [Claimed(choice.value, op.worker)] else s.log;
      if choice.Some? {
        ClaimKeeps(s, choice.value, op.worker, op.lease);
      } else {
        ClaimNoneKeeps(s);
      }
    }
  }

  lemma HeartbeatKeeps(s: State, j: JobId, worker: WorkerId, lease: real)
    requires Invariant(s)
    ensures Invariant(s.(table := Try(s.table, AfterHeartbeat(s.table, j, worker, lease, s.now))))
  {
    if worker != "" && lease > 0.0 && OwnsLease(s.table, j, worker) {
      RowOperations(s.table[j], s.log, j, "", lease, 0.0, s.now);
      UpdateKeeps(s, j, Renewed(s.table[j], lease, s.now));
    }
  }

  lemma FailKeeps(s: State, j: JobId, worker: WorkerId, error: string, delay: real)
    requires Invariant(s)
    ensures Invariant(s.(table := Try(s.table, AfterFail(s.table, j, worker, error, delay, s.now))))
  {
    if delay >= 0.0 && OwnsLease(s.table, j, worker) {
      RowOperations(s.table[j], s.log, j, error, 0.0, delay, s.now);
      UpdateKeeps(s, j, FailedOnce(s.table[j], error, delay, s.now));
    }
  }

  lemma CancelKeeps(s: State, j: JobId)
    requires Invariant(s)
    ensures Invariant(s.(table := Try(s.table, AfterCancel(s.table, j))))
  {
    if j < |s.table| && s.table[j].status !in {Completed, Failed} {
      RowOperations(s.table[j], s.log, j, "", 0.0, 0.0, s.now);
      UpdateKeeps(s, j, Released(s.table[j], Cancelled));
    }
  }

  lemma StepKeeps(s: State, op: Operation, next: State)
    requires Invariant(s) && ValidOperation(op) && Steps(s, op, next)
    ensures Invariant(next)
  {
    if op.Enqueue? {
      EnqueueKeeps(s, op.spec);
    } else if op.Claim? {
      ClaimStepKeeps(s, op, next);
    } else if op.Heartbeat? {
      HeartbeatKeeps(s, op.job, op.worker, op.lease);
    } else if op.Complete? {
      if OwnsLease(s.table, op.job, op.worker) { CompleteKeeps(s, op.job, op.worker); }
    } else if op.Fail? {
      FailKeeps(s, op.job, op.worker, op.error, op.delay);
    } else if op.Cancel? {
      CancelKeeps(s, op.job);
    }
  }

  /**
   * After every history: attempts count the claims and never exceed the maximum, pending jobs have attempts left,
   * a job is leased exactly when it has an owner and an expiry, its owner is its latest claimer, and a job is
   * completed exactly when it was finished, once.
   */
  lemma {:induction false} HistoriesKeepInvariant(operations: seq<Operation>, states: seq<State>, i: nat)
    requires History(operations, states) && i < |states|
    ensures Invariant(states[i])
  {
    if i > 0 {
      HistoriesKeepInvariant(operations, states, i - 1);
      assert ValidOperation(operations[i - 1]);
      StepKeeps(states[i - 1], operations[i - 1], states[i]);
    }
  }

  // ---- Theorems ----

  /** A finished, failed or cancelled job is never touched again by any operation. */
  lemma TerminalRowsStay(s: State, op: Operation, next: State, j: JobId)
    requires Invariant(s) && Steps(s, op, next) && j < |s.table| && s.table[j].status.Terminal()
    ensures j < |next.table| && next.table[j] == s.table[j]
  {
    if op.Claim? && op.worker != "" && op.lease > 0.0 {
      var choice :| MayReturn(s.table, s.now, op.locked, choice)
                    && next.table == AfterClaim(s.table, choice, op.worker, op.lease, s.now)
                    && next.log == if choice.Some? then s.log + [Claimed(choice.value, op.worker)] else s.log;
      assert Swept(s.table[j], s.now) == s.table[j] && !Claimable(s.table[j], s.now);
    }
  }

  lemma TerminalOneStep(operations: seq<Operation>, states: seq<State>, i: nat, j: JobId)
    requires History(operations, states) && i < |operations|
    requires j < |states[i].table| && states[i].table[j].status.Terminal()
    ensures j < |states[i + 1].table| && states[i + 1].table[j] == states[i].table[j]
  {
    HistoriesKeepInvariant(operations, states, i);
    TerminalRowsStay(states[i], operations[i], states[i + 1], j);
  }

  lemma {:induction false} TerminalForever(operations: seq<Operation>, states: seq<State>, i: nat, k: nat, j: JobId)
    requires History(operations, states) && i <= k < |states|
    requires j < |states[i].table| && states[i].table[j].status.Terminal()
    ensures j < |states[k].table| && states[k].table[j] == states[i].table[j]
    decreases k - i
  {
    if i < k {
      TerminalForever(operations, states, i, k - 1, j);
      TerminalOneStep(operations, states, k - 1, j);
    }
  }

  predicate ActsOn(op: Operation, j: JobId, worker: WorkerId) {
    (op.Heartbeat? || op.Complete? || op.Fail?) && op.job == j && op.worker == worker
  }

  /**
   * Fencing: a renewal, completion or failure reported by anyone but the job's latest claimer changes nothing, in any
   * reachable state, whether or not a lease has expired meanwhile.
   */
  lemma SupersededWorkersArePowerless(operations: seq<Operation>, states: seq<State>, i: nat, j: JobId,
                                      worker: WorkerId)
    requires History(operations, states) && i < |operations| && ActsOn(operations[i], j, worker)
    requires LastClaimer(states[i].log, j) != Some(worker)
    ensures states[i + 1].table == states[i].table && states[i + 1].log == states[i].log
  {
    HistoriesKeepInvariant(operations, states, i);
    assert Steps(states[i], operations[i], states[i + 1]);
    if j < |states[i].table| { assert RowInvariant(states[i].table[j], states[i].log, j); }
  }

  /** Conversely, the latest claimer still holds the lease unless the job was released or has ended. */
  lemma LatestClaimerOwnsTheLease(operations: seq<Operation>, states: seq<State>, i: nat, j: JobId, worker: WorkerId)
    requires History(operations, states) && i < |states|
    requires j < |states[i].table| && states[i].table[j].status == Leased
    ensures OwnsLease(states[i].table, j, worker) <==> LastClaimer(states[i].log, j) == Some(worker)
  {
    HistoriesKeepInvariant(operations, states, i);
    assert RowInvariant(states[i].table[j], states[i].log, j);
  }

  /** Over a whole history a job is completed at most once. */
  lemma CompletedAtMostOnce(operations: seq<Operation>, states: seq<State>, i: nat, j: JobId)
    requires History(operations, states) && i < |states| && j < |states[i].table|
    ensures FinishesOf(states[i].log, j) <= 1
    ensures FinishesOf(states[i].log, j) == 1 <==> states[i].table[j].status == Completed
  {
    HistoriesKeepInvariant(operations, states, i);
    assert RowInvariant(states[i].table[j], states[i].log, j);
  }

  // ---- The number of claims ----

  function Budget(table: Table): nat {
    if table == [] then 0 else Budget(table[..|table| - 1]) + table[|table| - 1].spec.maxAttempts
  }

  function Spent(table: Table): nat {
    if table == [] then 0 else Spent(table[..|table| - 1]) + table[|table| - 1].attempts
  }

  lemma {:induction false} SpentWithinBudget(table: Table)
    requires forall j :: 0 <= j < |table| ==> table[j].attempts <= table[j].spec.maxAttempts
    ensures Spent(table) <= Budget(table)
  {
    if table != [] {
      assert forall j :: 0 <= j < |table| - 1 ==> table[..|table| - 1][j] == table[j];
      SpentWithinBudget(table[..|table| - 1]);
    }
  }

  function AllClaims(log: seq<Entry>): nat {
    if log == [] then 0 else AllClaims(log[..|log| - 1]) + if log[|log| - 1].Claimed? then 1 else 0
  }

  lemma AllClaimsGrow(log: seq<Entry>, entry: Entry)
    ensures AllClaims(log + [entry]) == AllClaims(log) + if entry.Claimed? then 1 else 0
  {
    assert (log + [entry])[..|log|] == log;
  }

  /** Two tables whose rows have the same attempts, except one that has one more. */
  predicate SpentOnce(before: Table, after: Table, choice: JobId) {
    && |after| == |before| && choice < |before|
    && forall j :: 0 <= j < |before| ==> after[j].attempts == before[j].attempts + if j == choice then 1 else 0
  }

  predicate SpentNothing(before: Table, after: Table) {
    |before| <= |after| && forall j :: 0 <= j < |after| ==>
      after[j].attempts == if j < |before| then before[j].attempts else 0
  }

  lemma {:induction false} SpentNothingIsEqual(before: Table, after: Table)
    requires SpentNothing(before, after)
    ensures Spent(after) == Spent(before)
  {
    if after != [] {
      var shorter := after[..|after| - 1];
      if |after| == |before| {
        assert SpentNothing(before[..|before| - 1], shorter);
        SpentNothingIsEqual(before[..|before| - 1], shorter);
      } else {
        assert SpentNothing(before, shorter);
        SpentNothingIsEqual(before, shorter);
      }
    }
  }

  lemma {:induction false} SpentOnceIsOneMore(before: Table, after: Table, choice: JobId)
    requires SpentOnce(before, after, choice)
    ensures Spent(after) == Spent(before) + 1
  {
    var last := |before| - 1;
    var b, a := before[..last], after[..last];
    if choice == last {
      assert SpentNothing(b, a);
      SpentNothingIsEqual(b, a);
    } else {
      assert SpentOnce(b, a, choice);
      SpentOnceIsOneMore(b, a, choice);
    }
  }

  ghost predicate ClaimsAreSpent(s: State) {
    AllClaims(s.log) == Spent(s.table)
  }

  lemma SweepIsFree(table: Table, now: real)
    ensures Spent(SweptTable(table, now)) == Spent(table)
  {
    assert SpentNothing(table, SweptTable(table, now));
    SpentNothingIsEqual(table, SweptTable(table, now));
  }

  lemma OneClaimIsOneMore(table: Table, choice: JobId, worker: WorkerId, lease: real, now: real)
    requires choice < |table|
    ensures Spent(AfterClaim(table, Some(choice), worker, lease, now)) == Spent(table) + 1
  {
    assert SpentOnce(table, AfterClaim(table, Some(choice), worker, lease, now), choice);
    SpentOnceIsOneMore(table, AfterClaim(table, Some(choice), worker, lease, now), choice);
  }

  lemma ClaimIsSpent(s: State, op: Operation, next: State)
    requires op.Claim? && ClaimsAreSpent(s) && Steps(s, op, next)
    ensures ClaimsAreSpent(next)
  {
    if op.worker != "" && op.lease > 0.0 {
      var choice :| MayReturn(s.table, s.now, op.locked, choice)
                    && next.table == AfterClaim(s.table, choice, op.worker, op.lease, s.now)
                    && next.log == if choice.Some? then s.log + [Claimed(choice.value, op.worker)] else s.log;
      if choice.Some? {
        AllClaimsGrow(s.log, Claimed(choice.value, op.worker));
        OneClaimIsOneMore(s.table, choice.value, op.worker, op.lease, s.now);
      } else {
        SweepIsFree(s.table, s.now);
      }
    }
  }

  lemma OtherStepsAreFree(s: State, op: Operation, next: State)
    requires !op.Claim? && ClaimsAreSpent(s) && Steps(s, op, next)
    ensures ClaimsAreSpent(next)
  {
    assert SpentNothing(s.table, next.table);
    SpentNothingIsEqual(s.table, next.table);
    if op.Complete? && next.log != s.log { AllClaimsGrow(s.log, Finished(op.job, op.worker)); }
  }

  /** Over any history there are never more claims than the sum of all jobs' maximum attempts. */
  lemma {:induction false} ClaimsAreBounded(operations: seq<Operation>, states: seq<State>, i: nat)
    requires History(operations, states) && i < |states|
    ensures AllClaims(states[i].log) == Spent(states[i].table) <= Budget(states[i].table)
  {
    if i > 0 {
      ClaimsAreBounded(operations, states, i - 1);
      assert Steps(states[i - 1], operations[i - 1], states[i]);
      if operations[i - 1].Claim? {
        ClaimIsSpent(states[i - 1], operations[i - 1], states[i]);
      } else {
        OtherStepsAreFree(states[i - 1], operations[i - 1], states[i]);
      }
    }
    HistoriesKeepInvariant(operations, states, i);
    forall j | 0 <= j < |states[i].table|
      ensures states[i].table[j].attempts <= states[i].table[j].spec.maxAttempts
    {
      assert RowInvariant(states[i].table[j], states[i].log, j);
    }
    SpentWithinBudget(states[i].table);
  }

  // ---- No job is stranded ----

  /** The job's time has not come: it is not yet available, or its lease still runs. */
  predicate Waiting(job: Job, now: real) {
    || (job.status == Pending && job.availableAt > now)
    || (job.leaseExpiresAt.Some? && job.leaseExpiresAt.value > now)
  }

  /** Nothing can be claimed just now, and some job's time is still to come. */
  ghost predicate MustWait(s: State) {
    NoneClaimable(s.table, s.now, {}) && exists j :: 0 <= j < |s.table| && Waiting(s.table[j], s.now)
  }

  /** A claim that no lock of another transaction hinders. */
  predicate FreeClaim(op: Operation) {
    op.Claim? && op.worker != "" && op.lease > 0.0 && op.locked == {}
  }

  predicate AllEnded(table: Table) {
    forall j :: 0 <= j < |table| ==> table[j].status.Terminal()
  }

  lemma NothingClaimedIsEnded(s: State)
    requires Invariant(s) && !MustWait(s) && NoneClaimable(SweptTable(s.table, s.now), s.now, {})
    ensures AllEnded(SweptTable(s.table, s.now))
  {
    forall j | 0 <= j < |s.table| ensures Swept(s.table[j], s.now).status.Terminal() && !Claimable(s.table[j], s.now) {
      assert RowInvariant(s.table[j], s.log, j);
      assert !Claimable(SweptTable(s.table, s.now)[j], s.now);
    }
  }

  /** Where it need not wait, a free claim returns a job or leaves no job that has not ended. */
  lemma FreeClaimsProgress(s: State, op: Operation, next: State)
    requires Invariant(s) && Steps(s, op, next) && FreeClaim(op) && !MustWait(s)
    ensures AllClaims(next.log) == AllClaims(s.log) + 1 || AllEnded(next.table)
  {
    var choice :| MayReturn(s.table, s.now, op.locked, choice)
                  && next.table == AfterClaim(s.table, choice, op.worker, op.lease, s.now)
                  && next.log == if choice.Some? then s.log + [Claimed(choice.value, op.worker)] else s.log;
    if choice.Some? {
      AllClaimsGrow(s.log, Claimed(choice.value, op.worker));
    } else {
      NothingClaimedIsEnded(s);
    }
  }

  lemma ClaimsNeverShrink(s: State, op: Operation, next: State)
    requires Steps(s, op, next)
    ensures AllClaims(next.log) >= AllClaims(s.log)
  {
    if next.log != s.log {
      var entry := next.log[|next.log| - 1];
      assert next.log == s.log + [entry];
      AllClaimsGrow(s.log, entry);
    }
  }

  lemma EndedStays(s: State, op: Operation, next: State)
    requires Invariant(s) && Steps(s, op, next) && !op.Enqueue? && AllEnded(s.table)
    ensures AllEnded(next.table)
  {
    OtherStepsKeepSpecs(s, op, next);
    forall j | 0 <= j < |next.table| ensures next.table[j].status.Terminal() {
      TerminalRowsStay(s, op, next, j);
    }
  }

  predicate SameSpecs(before: Table, after: Table) {
    |after| == |before| && forall j :: 0 <= j < |before| ==> after[j].spec == before[j].spec
  }

  lemma OtherStepsKeepSpecs(s: State, op: Operation, next: State)
    requires !op.Enqueue? && Steps(s, op, next)
    ensures SameSpecs(s.table, next.table)
  {}

  /** How many of the operations from i up to n are free claims that need not wait. */
  ghost function Opportunities(operations: seq<Operation>, states: seq<State>, i: nat, n: nat): nat
    requires |states| == |operations| + 1 && i <= n < |states|
  {
    if i == n then 0
    else Opportunities(operations, states, i, n - 1) + if IsOpportunity(states[n - 1], operations[n - 1]) then 1 else 0
  }

  ghost predicate IsOpportunity(s: State, op: Operation) {
    FreeClaim(op) && !MustWait(s)
  }

  ghost predicate NoneEnqueued(operations: seq<Operation>, i: nat, n: nat) {
    forall k :: i <= k < n <= |operations| ==> !operations[k].Enqueue?
  }

  lemma ProgressStep(s: State, op: Operation, next: State, claims: nat)
    requires Invariant(s) && Steps(s, op, next) && !op.Enqueue?
    requires AllEnded(s.table) || AllClaims(s.log) >= claims
    ensures AllEnded(next.table) || AllClaims(next.log) >= claims + if IsOpportunity(s, op) then 1 else 0
  {
    if AllEnded(s.table) {
      EndedStays(s, op, next);
    } else {
      ClaimsNeverShrink(s, op, next);
      if IsOpportunity(s, op) { FreeClaimsProgress(s, op, next); }
    }
  }

  lemma {:induction false} OpportunitiesAreUsed(operations: seq<Operation>, states: seq<State>, i: nat, n: nat)
    requires History(operations, states) && i <= n < |states| && NoneEnqueued(operations, i, n)
    ensures AllEnded(states[n].table)
         || AllClaims(states[n].log) >= AllClaims(states[i].log) + Opportunities(operations, states, i, n)
  {
    if i < n {
      OpportunitiesAreUsed(operations, states, i, n - 1);
      HistoriesKeepInvariant(operations, states, n - 1);
      ProgressStep(states[n - 1], operations[n - 1], states[n],
                   AllClaims(states[i].log) + Opportunities(operations, states, i, n - 1));
    }
  }

  lemma {:induction false} SameBudget(before: Table, after: Table)
    requires SameSpecs(before, after)
    ensures Budget(after) == Budget(before)
  {
    if before != [] {
      var n := |before| - 1;
      assert before[..n + 1] == before && after[..n + 1] == after;
      SameBudget(before[..n], after[..n]);
    }
  }

  lemma {:induction false} SpecsStay(operations: seq<Operation>, states: seq<State>, i: nat, n: nat)
    requires History(operations, states) && i <= n < |states| && NoneEnqueued(operations, i, n)
    ensures SameSpecs(states[i].table, states[n].table)
  {
    if i < n {
      SpecsStay(operations, states, i, n - 1);
      OtherStepsKeepSpecs(states[n - 1], operations[n - 1], states[n]);
    }
  }

  /**
   * No job is stranded. In any stretch without new jobs, whatever workers, heartbeats, failures and cancellations do,
   * every job has ended as soon as there were more free claims that need not wait than there were attempts left: a
   * job that its worker abandoned is always retried or, after its last attempt, marked failed.
   */
  lemma NoJobIsStranded(operations: seq<Operation>, states: seq<State>, i: nat, n: nat)
    requires History(operations, states) && i <= n < |states| && NoneEnqueued(operations, i, n)
    requires Opportunities(operations, states, i, n) > Budget(states[i].table) - Spent(states[i].table)
    ensures AllEnded(states[n].table)
  {
    OpportunitiesAreUsed(operations, states, i, n);
    SpecsStay(operations, states, i, n);
    SameBudget(states[i].table, states[n].table);
    ClaimsAreBounded(operations, states, i);
    ClaimsAreBounded(operations, states, n);
  }

  // ---- Who goes first ----

  /** A worker may take the job: it is pending and available, or its lease has run out with attempts left. */
  predicate Takeable(job: Job, now: real) {
    || (job.status == Pending && job.availableAt <= now)
    || (job.status == Leased && job.leaseExpiresAt.Some? && job.leaseExpiresAt.value <= now
        && job.attempts < job.spec.maxAttempts)
  }

  lemma TakeableIsClaimable(job: Job, now: real)
    ensures Claimable(job, now) <==> Takeable(job, now)
    ensures Takeable(job, now) ==> Swept(job, now) == job
    ensures Takeable(Swept(job, now), now) ==> Takeable(job, now)
  {}

  /**
   * A claim takes a job that may be taken, and passes over no other such job that nobody has locked and that became
   * available earlier, or at the same time and was created earlier.
   */
  lemma ClaimsGoInOrder(s: State, op: Operation, next: State, j: JobId, k: JobId)
    requires Steps(s, op, next) && op.Claim? && next.log == s.log + [Claimed(j, op.worker)]
    ensures j < |s.table| && j !in op.locked && Takeable(s.table[j], s.now)
    ensures k < |s.table| && k !in op.locked && Takeable(s.table[k], s.now) ==>
              && s.table[j].availableAt <= s.table[k].availableAt
              && (s.table[j].availableAt == s.table[k].availableAt ==> s.table[j].createdAt <= s.table[k].createdAt)
  {
    assert next.log[|s.log|] == Claimed(j, op.worker);
    var choice :| MayReturn(s.table, s.now, op.locked, choice)
                  && next.table == AfterClaim(s.table, choice, op.worker, op.lease, s.now)
                  && next.log == if choice.Some? then s.log + [Claimed(choice.value, op.worker)] else s.log;
    assert choice == Some(j) by {
      if choice.Some? { assert next.log[|s.log|] == Claimed(choice.value, op.worker); }
    }
    TakeableIsClaimable(s.table[j], s.now);
    TakeableIsClaimable(Swept(s.table[j], s.now), s.now);
    if k < |s.table| {
      TakeableIsClaimable(s.table[k], s.now);
    }
  }

  /** So in every history. */
  lemma HistoriesClaimInOrder(operations: seq<Operation>, states: seq<State>, i: nat, j: JobId, k: JobId)
    requires History(operations, states) && i < |operations| && operations[i].Claim?
    requires states[i + 1].log == states[i].log + [Claimed(j, operations[i].worker)]
    requires k < |states[i].table| && k !in operations[i].locked && Takeable(states[i].table[k], states[i].now)
    ensures j < |states[i].table| && Takeable(states[i].table[j], states[i].now)
    ensures states[i].table[j].availableAt <= states[i].table[k].availableAt
    ensures states[i].table[j].availableAt == states[i].table[k].availableAt ==>
              states[i].table[j].createdAt <= states[i].table[k].createdAt
  {
    ClaimsGoInOrder(states[i], operations[i], states[i + 1], j, k);
  }

  // ---- How jobs end ----

  /** A fresh job can be taken exactly from the time it asked for, and never was before. */
  lemma NewJobsWaitForTheirTime(spec: JobSpec, created: real, now: real)
    ensures Takeable(NewJob(spec, created), now) <==> now >= spec.availableAt
    ensures var job := NewJob(spec, created);
            job.spec == spec && job.attempts == 0 && job.createdAt == created && job.leasedBy.None?
            && job.lastError.None?
  {}

  /**
   * A step ends a job only in these ways: a cancellation of it, a completion by the owner of its lease, a failure that
   * its owner reports, or the sweep before a claim, once its lease has run out; it fails only after its last attempt.
   */
  lemma JobsEndOnlySo(s: State, op: Operation, next: State, j: JobId)
    requires Steps(s, op, next) && j < |s.table| && j < |next.table|
    requires !s.table[j].status.Terminal() && next.table[j].status.Terminal()
    ensures next.table[j].leasedBy.None? && next.table[j].leaseExpiresAt.None?
    ensures next.table[j].status == Cancelled ==> op == Cancel(j)
    ensures next.table[j].status == Completed ==>
              op.Complete? && op.job == j && s.table[j].status == Leased && s.table[j].leasedBy == Some(op.worker)
    ensures next.table[j].status == Failed ==>
              && s.table[j].status == Leased && s.table[j].attempts >= s.table[j].spec.maxAttempts
              && ((op.Fail? && op.job == j && s.table[j].leasedBy == Some(op.worker)
                   && next.table[j].lastError == Some(op.error))
                  || (op.Claim? && s.table[j].leaseExpiresAt.Some? && s.table[j].leaseExpiresAt.value <= s.now))
  {
    if op.Claim? && op.worker != "" && op.lease > 0.0 {
      var choice :| MayReturn(s.table, s.now, op.locked, choice)
                    && next.table == AfterClaim(s.table, choice, op.worker, op.lease, s.now)
                    && next.log == if choice.Some? then s.log + [Claimed(choice.value, op.worker)] else s.log;
    }
  }

  /** Whoever reports on a job is heard exactly while holding its lease; a cancellation, exactly before its end. */
  lemma ReportsAreHeardExactly(table: Table, j: JobId, worker: WorkerId, error: string, lease: real, delay: real,
                               now: real)
    requires worker != "" && lease > 0.0 && delay >= 0.0
    ensures var holds := j < |table| && table[j].status == Leased && table[j].leasedBy == Some(worker);
            && (AfterHeartbeat(table, j, worker, lease, now).Ok? <==> holds)
            && (AfterComplete(table, j, worker).Ok? <==> holds)
            && (AfterFail(table, j, worker, error, delay, now).Ok? <==> holds)
    ensures AfterCancel(table, j).Ok? <==> j < |table| && table[j].status in {Pending, Leased, Cancelled}
  {}

  /** A failed attempt with attempts left is retried, but not before its delay has passed. */
  lemma RetriesWaitOutTheirDelay(s: State, j: JobId, worker: WorkerId, error: string, delay: real, later: real)
    requires Invariant(s) && AfterFail(s.table, j, worker, error, delay, s.now).Ok?
    ensures var job := AfterFail(s.table, j, worker, error, delay, s.now).value[j];
            && job.lastError == Some(error)
            && (job.status == Failed <==> s.table[j].attempts == s.table[j].spec.maxAttempts)
            && (job.status != Failed ==> (Claimable(job, later) <==> later >= s.now + delay))
  {
    assert RowInvariant(s.table[j], s.log, j);
  }

  /** A claimed or renewed job cannot be claimed by anyone before its lease has run out. */
  lemma LeasesProtect(job: Job, worker: WorkerId, lease: real, now: real, later: real)
    requires lease > 0.0
    ensures Claimable(ClaimedBy(job, worker, lease, now), later)
       <==> later >= now + lease && job.attempts + 1 < job.spec.maxAttempts
    ensures job.status == Leased ==>
              (Claimable(Renewed(job, lease, now), later) <==> later >= now + lease && !Exhausted(job))
  {}

  // ---- Idempotent enqueueing ----

  ghost predicate KeysUnique(table: Table) {
    forall i, j :: 0 <= i < j < |table| && table[i].spec.idempotencyKey.Some? ==>
      table[i].spec.idempotencyKey != table[j].spec.idempotencyKey
  }

  lemma EnqueueKeepsKeys(table: Table, spec: JobSpec, now: real)
    requires KeysUnique(table) && !Duplicate(table, spec)
    ensures KeysUnique(table + [NewJob(spec, now)])
  {
    forall i | 0 <= i < |table| && table[i].spec.idempotencyKey.Some?
      ensures table[i].spec.idempotencyKey != spec.idempotencyKey
    {
      assert spec.idempotencyKey.Some? ==> !HasKey(table, i, spec.idempotencyKey.value);
    }
  }

  /** However often a keyed job is enqueued, the table holds it once. */
  lemma {:induction false} KeysStayUnique(operations: seq<Operation>, states: seq<State>, i: nat)
    requires History(operations, states) && i < |states|
    ensures KeysUnique(states[i].table)
  {
    if i > 0 {
      KeysStayUnique(operations, states, i - 1);
      var s, op, next := states[i - 1], operations[i - 1], states[i];
      assert Steps(s, op, next);
      if op.Enqueue? {
        if !Duplicate(s.table, op.spec) { EnqueueKeepsKeys(s.table, op.spec, s.now); }
      } else {
        OtherStepsKeepSpecs(s, op, next);
      }
    }
  }
}
