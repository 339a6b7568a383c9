/** The durable job table and the operations workers perform on it, each one transaction. */
module JobQueue {
  import opened Prelude

  type WorkerId = string

  /** A job's identity is its place in the table, which only ever grows. */
  type JobId = nat

  datatype JobStatus = Pending | Leased | Completed | Failed | Cancelled
  {
    predicate Terminal() {
      this in {Completed, Failed, Cancelled}
    }
  }

  datatype JobSpec = JobSpec(kind: string, maxAttempts: nat, idempotencyKey: Option<string>, availableAt: real)
  {
    predicate Valid() {
      kind != "" && maxAttempts > 0 && (idempotencyKey.Some? ==> idempotencyKey.value != "")
    }
  }

  datatype Job = Job(
    spec: JobSpec, status: JobStatus, attempts: nat, availableAt: real, createdAt: real,
    leasedBy: Option<WorkerId>, leaseExpiresAt: Option<real>, lastError: Option<string>)

  datatype QueueError = JobNotFound | NotLeasedByWorker | AlreadyFinished | EmptyWorkerId | BadLease | BadDelay

  // ---- Rows ----

  function NewJob(spec: JobSpec, now: real): Job {
    Job(spec, Pending, 0, spec.availableAt, now, None, None, None)
  }

  predicate Expired(job: Job, now: real) {
    job.status == Leased && job.leaseExpiresAt.Some? && job.leaseExpiresAt.value <= now
  }

  predicate Exhausted(job: Job) {
    job.attempts >= job.spec.maxAttempts
  }

  predicate Claimable(job: Job, now: real) {
    || (job.status == Pending && job.availableAt <= now)
    || (Expired(job, now) && !Exhausted(job))
  }

  function FailedByExpiry(job: Job): Job {
    job.(status := Failed, leasedBy := None, leaseExpiresAt := None,
         lastError := Some("worker lease expired after final attempt"))
  }

  /** What the sweep before every claim does to a row. */
  function Swept(job: Job, now: real): Job {
    if Expired(job, now) && Exhausted(job) then FailedByExpiry(job) else job
  }

  function ClaimedBy(job: Job, worker: WorkerId, lease: real, now: real): Job {
    job.(status := Leased, attempts := job.attempts + 1, leasedBy := Some(worker), leaseExpiresAt := Some(now + lease))
  }

  function Renewed(job: Job, lease: real, now: real): Job {
    job.(leaseExpiresAt := Some(now + lease))
  }

  function Released(job: Job, status: JobStatus): Job {
    job.(status := status, leasedBy := None, leaseExpiresAt := None)
  }

  function FailedOnce(job: Job, error: string, delay: real, now: real): Job {
    var released := job.(lastError := Some(error), leasedBy := None, leaseExpiresAt := None);
    if Exhausted(job) then released.(status := Failed)
    else released.(status := Pending, availableAt := now + delay)
  }

  // ---- The table ----

  type Table = seq<Job>

  predicate HasKey(table: Table, j: JobId, key: string) {
    j < |table| && table[j].spec.idempotencyKey == Some(key)
  }

  function SweptTable(table: Table, now: real): (r: Table)
    ensures |r| == |table| && forall j :: 0 <= j < |r| ==> r[j] == Swept(table[j], now)
  {
    seq(|table|, j requires 0 <= j < |table| => Swept(table[j], now))
  }

  /** Earlier availability first, then earlier creation. */
  predicate Before(a: Job, b: Job) {
    a.availableAt < b.availableAt || (a.availableAt == b.availableAt && a.createdAt <= b.createdAt)
  }

  /** `j` can be claimed and no other claimable, unlocked job should go first. */
  predicate IsNext(table: Table, now: real, locked: set<JobId>, j: JobId) {
    && j < |table| && j !in locked && Claimable(table[j], now)
    && forall k :: 0 <= k < |table| && k !in locked && Claimable(table[k], now) ==> Before(table[j], table[k])
  }

  predicate NoneClaimable(table: Table, now: real, locked: set<JobId>) {
    forall k :: 0 <= k < |table| && k !in locked ==> !Claimable(table[k], now)
  }

  /** The table after worker `worker` was given job `j`, or none. */
  function AfterClaim(table: Table, choice: Option<JobId>, worker: WorkerId, lease: real, now: real): (r: Table)
    requires choice.Some? ==> choice.value < |table|
    ensures |r| == |table|
  {
    var swept := SweptTable(table, now);
    if choice.None? then swept else swept[choice.value := ClaimedBy(swept[choice.value], worker, lease, now)]
  }

  predicate OwnsLease(table: Table, j: JobId, worker: WorkerId) {
    j < |table| && table[j].status == Leased && table[j].leasedBy == Some(worker)
  }

  function Owned(table: Table, j: JobId, worker: WorkerId): Result<Job, QueueError> {
    if j >= |table| then Err(JobNotFound)
    else if !OwnsLease(table, j, worker) then Err(NotLeasedByWorker)
    else Ok(table[j])
  }

  function AfterHeartbeat(table: Table, j: JobId, worker: WorkerId, lease: real, now: real): Result<Table, QueueError> {
    if worker == "" then Err(EmptyWorkerId)
    else if lease <= 0.0 then Err(BadLease)
    else
      var owned := Owned(table, j, worker);
      if owned.Err? then Err(owned.error) else Ok(table[j := Renewed(owned.value, lease, now)])
  }

  function AfterComplete(table: Table, j: JobId, worker: WorkerId): Result<Table, QueueError> {
    var owned := Owned(table, j, worker);
    if owned.Err? then Err(owned.error) else Ok(table[j := Released(owned.value, Completed)])
  }

  function AfterFail(table: Table, j: JobId, worker: WorkerId, error: string, delay: real, now: real)
    : Result<Table, QueueError>
  {
    if delay < 0.0 then Err(BadDelay)
    else
      var owned := Owned(table, j, worker);
      if owned.Err? then Err(owned.error) else Ok(table[j := FailedOnce(owned.value, error, delay, now)])
  }

  function AfterCancel(table: Table, j: JobId): Result<Table, QueueError> {
    if j >= |table| then Err(JobNotFound)
    else if table[j].status in {Completed, Failed} then Err(AlreadyFinished)
    else Ok(table[j := Released(table[j], Cancelled)])
  }

  // ---- The queue ----

  class Queue {
    var rows: Table

    constructor ()
      ensures rows == []
    {
      rows := [];
    }

    /** With a key that is already there, enqueueing returns the job that has it and changes nothing. */
    method Enqueue(spec: JobSpec, now: real) returns (j: JobId)
      modifies this
      ensures j < |rows|
      ensures (exists k :: 0 <= k < |old(rows)| && spec.idempotencyKey.Some?
                           && HasKey(old(rows), k, spec.idempotencyKey.value)) ==>
                rows == old(rows) && HasKey(rows, j, spec.idempotencyKey.value)
      ensures !(exists k :: 0 <= k < |old(rows)| && spec.idempotencyKey.Some?
                            && HasKey(old(rows), k, spec.idempotencyKey.value)) ==>
                && rows == old(rows) + [NewJob(spec, now)] && j == |old(rows)|
                && rows[j] == Job(spec, Pending, 0, spec.availableAt, now, None, None, None)
    {
      if spec.idempotencyKey.Some? {
        for k := 0 to |rows|
          invariant forall i :: 0 <= i < k ==> !HasKey(rows, i, spec.idempotencyKey.value)
        {
          if rows[k].spec.idempotencyKey == spec.idempotencyKey {
            assert HasKey(rows, k, spec.idempotencyKey.value);
            return k;
          }
        }
      }
      j := |rows|;
      rows := rows + [NewJob(spec, now)];
    }

    method MarkExhaustedLeasesFailed(now: real)
      modifies this
      ensures rows == SweptTable(old(rows), now)
      ensures |rows| == |old(rows)| && forall k :: 0 <= k < |rows| ==>
                var job := old(rows)[k];
                if job.status == Leased && job.leaseExpiresAt.Some? && job.leaseExpiresAt.value <= now
                   && job.spec.maxAttempts <= job.attempts then
                  rows[k] == Job(job.spec, Failed, job.attempts, job.availableAt, job.createdAt, None, None,
                                 Some("worker lease expired after final attempt"))
                else rows[k] == job
    {
      for k := 0 to |rows|
        invariant |rows| == |old(rows)|
        invariant forall i :: 0 <= i < k ==> rows[i] == Swept(old(rows)[i], now)
        invariant forall i :: k <= i < |rows| ==> rows[i] == old(rows)[i]
      {
        if Expired(rows[k], now) && Exhausted(rows[k]) {
          rows := rows[k := FailedByExpiry(rows[k])];
        }
      }
    }

    /** The first job to claim, among those no other transaction has locked. */
    method FindClaimable(now: real, locked: set<JobId>) returns (choice: Option<JobId>)
      ensures choice.None? ==> NoneClaimable(rows, now, locked)
      ensures choice.Some? ==> IsNext(rows, now, locked, choice.value)
      ensures choice.Some? ==> forall k :: 0 <= k < |rows| && k !in locked && Claimable(rows[k], now) ==>
                && rows[choice.value].availableAt <= rows[k].availableAt
                && (rows[choice.value].availableAt == rows[k].availableAt ==>
                      rows[choice.value].createdAt <= rows[k].createdAt)
    {
      choice := None;
      for k := 0 to |rows|
        invariant choice.None? ==> forall i :: 0 <= i < k && i !in locked ==> !Claimable(rows[i], now)
        invariant choice.Some? ==>
                    && choice.value < k && choice.value !in locked && Claimable(rows[choice.value], now)
                    && forall i :: 0 <= i < k && i !in locked && Claimable(rows[i], now) ==>
                        Before(rows[choice.value], rows[i])
      {
        if k !in locked && Claimable(rows[k], now) && (choice.None? || !Before(rows[choice.value], rows[k])) {
          choice := Some(k);
        }
      }
    }

    method Claim(worker: WorkerId, lease: real, now: real, locked: set<JobId>)
      returns (r: Result<Option<JobId>, QueueError>)
      modifies this
      ensures r.Err? <==> worker == "" || lease <= 0.0
      ensures r.Err? ==> rows == old(rows)
      ensures r.Ok? ==>
                && (r.value.None? ==> NoneClaimable(SweptTable(old(rows), now), now, locked))
                && (r.value.Some? ==> IsNext(SweptTable(old(rows), now), now, locked, r.value.value))
                && rows == AfterClaim(old(rows), r.value, worker, lease, now)
      ensures r.Ok? && r.value.Some? ==>
                var swept, j := SweptTable(old(rows), now), r.value.value;
                forall k :: 0 <= k < |swept| && k !in locked && Claimable(swept[k], now) ==>
                  && swept[j].availableAt <= swept[k].availableAt
                  && (swept[j].availableAt == swept[k].availableAt ==> swept[j].createdAt <= swept[k].createdAt)
      ensures r.Ok? && r.value.Some? ==>
                var j := r.value.value;
                j < |rows| == |old(rows)|
                && var job := old(rows)[j];
                   rows[j] == Job(job.spec, Leased, job.attempts + 1, job.availableAt, job.createdAt, Some(worker),
                                  Some(now + lease), job.lastError)
    {
      if worker == "" { return Err(EmptyWorkerId); }
      if lease <= 0.0 { return Err(BadLease); }
      MarkExhaustedLeasesFailed(now);
      var choice := FindClaimable(now, locked);
      if choice.Some? {
        var job := rows[choice.value];
        rows := rows[choice.value := ClaimedBy(job, worker, lease, now)];
      }
      return Ok(choice);
    }

    method Heartbeat(j: JobId, worker: WorkerId, lease: real, now: real) returns (error: Option<QueueError>)
      modifies this
      ensures var r := AfterHeartbeat(old(rows), j, worker, lease, now);
              error == (if r.Ok? then None else Some(r.error)) && rows == (if r.Ok? then r.value else old(rows))
    {
      if worker == "" { return Some(EmptyWorkerId); }
      if lease <= 0.0 { return Some(BadLease); }
      var owned := Owned(rows, j, worker);
      if owned.Err? { return Some(owned.error); }
      rows := rows[j := rows[j].(leaseExpiresAt := Some(now + lease))];
      return None;
    }

    method Complete(j: JobId, worker: WorkerId) returns (error: Option<QueueError>)
      modifies this
      ensures var r := AfterComplete(old(rows), j, worker);
              error == (if r.Ok? then None else Some(r.error)) && rows == (if r.Ok? then r.value else old(rows))
    {
      var owned := Owned(rows, j, worker);
      if owned.Err? { return Some(owned.error); }
      rows := rows[j := rows[j].(status := Completed, leasedBy := None, leaseExpiresAt := None)];
      return None;
    }

    method Fail(j: JobId, worker: WorkerId, message: string, delay: real, now: real) returns (error: Option<QueueError>)
      modifies this
      ensures var r := AfterFail(old(rows), j, worker, message, delay, now);
              error == (if r.Ok? then None else Some(r.error)) && rows == (if r.Ok? then r.value else old(rows))
    {
      if delay < 0.0 { return Some(BadDelay); }
      var owned := Owned(rows, j, worker);
      if owned.Err? { return Some(owned.error); }
      var job := rows[j].(lastError := Some(message), leasedBy := None, leaseExpiresAt := None);
      if job.attempts >= job.spec.maxAttempts {
        job := job.(status := Failed);
      } else {
        job := job.(status := Pending, availableAt := now + delay);
      }
      rows := rows[j := job];
      return None;
    }

    method Cancel(j: JobId) returns (error: Option<QueueError>)
      modifies this
      ensures var r := AfterCancel(old(rows), j);
              error == (if r.Ok? then None else Some(r.error)) && rows == (if r.Ok? then r.value else old(rows))
    {
      if j >= |rows| { return Some(JobNotFound); }
      if rows[j].status in {Completed, Failed} { return Some(AlreadyFinished); }
      rows := rows[j := rows[j].(status := Cancelled, leasedBy := None, leaseExpiresAt := None)];
      return None;
    }
  }
}
