/** Workers that run handlers under renewed leases, against one shared clock. */
module JobWorkers {
  import opened Prelude
  import opened JobQueue

  const HEARTBEATS_PER_LEASE: real := 3.0
  const MINIMUM_HEARTBEAT_INTERVAL: real := 1.0

  /** How often a running job renews its lease when no interval is configured. */
  function HeartbeatInterval(lease: real): real {
    if lease / HEARTBEATS_PER_LEASE >= MINIMUM_HEARTBEAT_INTERVAL then lease / HEARTBEATS_PER_LEASE
    else MINIMUM_HEARTBEAT_INTERVAL
  }

  /** A handler is live exactly while its worker is running it. */
  datatype Worker = Resting | Running(job: JobId, renewedAt: real) | Reporting(job: JobId, succeeded: bool)

  /** The lease all workers take, and the longest that passes between a renewal and the next. */
  datatype Timing = Timing(lease: real, gap: real)

  datatype System = System(table: Table, now: real, workers: map<WorkerId, Worker>)
  {
    function At(w: WorkerId): Worker {
      if w in workers then workers[w] else Resting
    }
  }

  datatype Event =
    | Enqueue(spec: JobSpec)
    | Claim(worker: WorkerId, locked: set<JobId>, choice: Option<JobId>)
    | Beat(worker: WorkerId)
    | Finish(worker: WorkerId, succeeded: bool)
    | Report(worker: WorkerId, delay: real)
    | Die(worker: WorkerId)
    | Cancel(job: JobId)
    | Wait(seconds: real)

  /** No renewal comes later than the timing allows. */
  predicate RenewalsOnTime(timing: Timing, s: System, time: real) {
    forall w <- s.workers :: s.workers[w].Running? ==> time <= s.workers[w].renewedAt + timing.gap
  }

  predicate Chosen(s: System, locked: set<JobId>, choice: Option<JobId>) {
    var swept := SweptTable(s.table, s.now);
    if choice.Some? then IsNext(swept, s.now, locked, choice.value) else NoneClaimable(swept, s.now, locked)
  }

  predicate Enabled(timing: Timing, s: System, event: Event) {
    match event
    case Enqueue(spec) =>
      && spec.Valid()
      && (spec.idempotencyKey.Some? ==> forall k :: 0 <= k < |s.table| ==>
          !HasKey(s.table, k, spec.idempotencyKey.value))
    case Claim(w, locked, choice) => w != "" && s.At(w).Resting? && Chosen(s, locked, choice)
    case Beat(w) => s.At(w).Running?
    case Finish(w, _) => s.At(w).Running?
    case Report(w, delay) => s.At(w).Reporting? && delay >= 0.0
    case Die(_) => true
    case Cancel(_) => true
    case Wait(seconds) => seconds >= 0.0 && RenewalsOnTime(timing, s, s.now + seconds)
  }

  function Keep(table: Table, result: Result<Table, QueueError>): Table {
    if result.Ok? then result.value else table
  }

  /** A refused heartbeat cancels the handler, and its worker reports a failure instead. */
  function Next(timing: Timing, s: System, event: Event): System
    requires Enabled(timing, s, event)
  {
    match event
    case Enqueue(spec) => s.(table := s.table + [NewJob(spec, s.now)])
    case Claim(w, _, choice) =>
      System(AfterClaim(s.table, choice, w, timing.lease, s.now), s.now,
             if choice.Some? then s.workers[w := Running(choice.value, s.now)] else s.workers)
    case Beat(w) =>
      var j := s.At(w).job;
      var renewed := AfterHeartbeat(s.table, j, w, timing.lease, s.now);
      System(Keep(s.table, renewed), s.now,
             s.workers[w := if renewed.Ok? then Running(j, s.now) else Reporting(j, false)])
    case Finish(w, succeeded) => s.(workers := s.workers[w := Reporting(s.At(w).job, succeeded)])
    case Report(w, delay) =>
      var j := s.At(w).job;
      var result := if s.At(w).succeeded then AfterComplete(s.table, j, w)
                    else AfterFail(s.table, j, w, "handler failed", delay, s.now);
      System(Keep(s.table, result), s.now, s.workers[w := Resting])
    case Die(w) => s.(workers := s.workers[w := Resting])
    case Cancel(j) => s.(table := Keep(s.table, AfterCancel(s.table, j)))
    case Wait(seconds) => s.(now := s.now + seconds)
  }

  ghost predicate Run(timing: Timing, events: seq<Event>, states: seq<System>) {
    && |states| == |events| + 1
    && states[0].table == [] && states[0].workers == map[]
    && forall i :: 0 <= i < |events| ==>
        Enabled(timing, states[i], events[i]) && states[i + 1] == Next(timing, states[i], events[i])
  }

  predicate Live(s: System, w: WorkerId, j: JobId) {
    s.At(w).Running? && s.At(w).job == j
  }

  ghost predicate AtMostOneLive(s: System) {
    forall v, w, j :: Live(s, v, j) && Live(s, w, j) ==> v == w
  }

  // ---- The invariant ----

  /** A running handler's job is still leased to its worker until some time ahead, unless it was cancelled. */
  predicate Protected(timing: Timing, s: System, w: WorkerId) {
    s.At(w).Running? ==>
      var j, renewedAt := s.At(w).job, s.At(w).renewedAt;
      && j < |s.table|
      && s.now <= renewedAt + timing.gap
      && (s.table[j].status == Cancelled
          || (OwnsLease(s.table, j, w) && s.table[j].leaseExpiresAt == Some(renewedAt + timing.lease)))
  }

  /** A worker about to report is the only one that can hold the lease of its job in its own name. */
  ghost predicate Safe(timing: Timing, s: System) {
    (forall w :: Protected(timing, s, w)) && AtMostOneLive(s)
  }

  lemma ProtectedIsNotClaimable(timing: Timing, s: System, w: WorkerId)
    requires timing.gap < timing.lease && Protected(timing, s, w) && s.At(w).Running?
    ensures var job := s.table[s.At(w).job]; Swept(job, s.now) == job && !Claimable(job, s.now)
  {}

  lemma ClaimIsSafe(timing: Timing, s: System, event: Event)
    requires timing.gap < timing.lease && Safe(timing, s) && event.Claim? && Enabled(timing, s, event)
    requires timing.gap >= 0.0
    ensures Safe(timing, Next(timing, s, event))
  {
    var next := Next(timing, s, event);
    forall v ensures Protected(timing, next, v) {
      if v != event.worker && s.At(v).Running? { ProtectedIsNotClaimable(timing, s, v); }
      assert Protected(timing, s, v);
    }
    forall v, w, j | Live(next, v, j) && Live(next, w, j) ensures v == w {
      if v != event.worker && s.At(v).Running? { ProtectedIsNotClaimable(timing, s, v); }
      if w != event.worker && s.At(w).Running? { ProtectedIsNotClaimable(timing, s, w); }
      assert v != event.worker ==> Live(s, v, j);
      assert w != event.worker ==> Live(s, w, j);
    }
  }

  lemma BeatIsSafe(timing: Timing, s: System, event: Event)
    requires timing.lease > 0.0 && timing.gap >= 0.0 && Safe(timing, s) && event.Beat? && Enabled(timing, s, event)
    ensures Safe(timing, Next(timing, s, event))
  {
    var next := Next(timing, s, event);
    forall v ensures Protected(timing, next, v) {
      assert Protected(timing, s, v);
      assert Protected(timing, s, event.worker);
    }
    forall v, w, j | Live(next, v, j) && Live(next, w, j) ensures v == w {
      assert Live(s, v, j) && Live(s, w, j);
    }
  }

  lemma ReportIsSafe(timing: Timing, s: System, event: Event)
    requires Safe(timing, s) && event.Report? && Enabled(timing, s, event)
    ensures Safe(timing, Next(timing, s, event))
  {
    var next := Next(timing, s, event);
    forall v ensures Protected(timing, next, v) {
      assert Protected(timing, s, v);
    }
    forall v, w, j | Live(next, v, j) && Live(next, w, j) ensures v == w {
      assert Live(s, v, j) && Live(s, w, j);
    }
  }

  lemma OtherEventsAreSafe(timing: Timing, s: System, event: Event)
    requires Safe(timing, s) && Enabled(timing, s, event)
    requires event.Enqueue? || event.Finish? || event.Die? || event.Cancel? || event.Wait?
    ensures Safe(timing, Next(timing, s, event))
  {
    var next := Next(timing, s, event);
    forall v ensures Protected(timing, next, v) {
      assert Protected(timing, s, v);
    }
    forall v, w, j | Live(next, v, j) && Live(next, w, j) ensures v == w {
      assert Live(s, v, j) && Live(s, w, j);
    }
  }

  lemma StepIsSafe(timing: Timing, s: System, event: Event)
    requires 0.0 <= timing.gap < timing.lease && Safe(timing, s) && Enabled(timing, s, event)
    ensures Safe(timing, Next(timing, s, event))
  {
    if event.Claim? {
      ClaimIsSafe(timing, s, event);
    } else if event.Beat? {
      BeatIsSafe(timing, s, event);
    } else if event.Report? {
      ReportIsSafe(timing, s, event);
    } else {
      OtherEventsAreSafe(timing, s, event);
    }
  }

  lemma {:induction false} RunsAreSafe(timing: Timing, events: seq<Event>, states: seq<System>, i: nat)
    requires 0.0 <= timing.gap < timing.lease && Run(timing, events, states) && i < |states|
    ensures Safe(timing, states[i])
  {
    if i > 0 {
      RunsAreSafe(timing, events, states, i - 1);
      assert Enabled(timing, states[i - 1], events[i - 1]);
      StepIsSafe(timing, states[i - 1], events[i - 1]);
    }
  }

  // ---- Exactly when handlers never overlap ----

  ghost predicate NeverOverlaps(timing: Timing) {
    forall events, states, i :: Run(timing, events, states) && 0 <= i < |states| ==> AtMostOneLive(states[i])
  }

  /** If a renewal may come a whole lease late, two workers can run the same job at once. */
  lemma LateRenewalsOverlap(timing: Timing)
    requires 0.0 < timing.lease <= timing.gap
    ensures !NeverOverlaps(timing)
  {
    var spec := JobSpec("k", 2, None, 0.0);
    var job := NewJob(spec, 0.0);
    var first := ClaimedBy(job, "a", timing.lease, 0.0);
    var second := ClaimedBy(first, "b", timing.lease, timing.lease);
    var events := [Enqueue(spec), Claim("a", {}, Some(0)), Wait(timing.lease), Claim("b", {}, Some(0))];
    var states := [
      System([], 0.0, map[]),
      System([job], 0.0, map[]),
      System([first], 0.0, map["a" := Running(0, 0.0)]),
      System([first], timing.lease, map["a" := Running(0, 0.0)]),
      System([second], timing.lease, map["a" := Running(0, 0.0), "b" := Running(0, timing.lease)])];
    assert Next(timing, states[0], events[0]) == states[1];
    FirstClaim(timing, states[1], job, first);
    assert Enabled(timing, states[2], events[2]) && Next(timing, states[2], events[2]) == states[3];
    SecondClaim(timing, states[3], first, second);
    FourSteps(timing, events, states);
    assert Live(states[4], "a", 0) && Live(states[4], "b", 0);
  }

  lemma FourSteps(timing: Timing, events: seq<Event>, states: seq<System>)
    requires |events| == 4 && |states| == 5 && states[0].table == [] && states[0].workers == map[]
    requires Enabled(timing, states[0], events[0]) && states[1] == Next(timing, states[0], events[0])
    requires Enabled(timing, states[1], events[1]) && states[2] == Next(timing, states[1], events[1])
    requires Enabled(timing, states[2], events[2]) && states[3] == Next(timing, states[2], events[2])
    requires Enabled(timing, states[3], events[3]) && states[4] == Next(timing, states[3], events[3])
    ensures Run(timing, events, states)
  {}

  lemma FirstClaim(timing: Timing, s: System, job: Job, first: Job)
    requires timing.lease > 0.0 && job == NewJob(JobSpec("k", 2, None, 0.0), 0.0)
    requires s == System([job], 0.0, map[]) && first == ClaimedBy(job, "a", timing.lease, 0.0)
    ensures Enabled(timing, s, Claim("a", {}, Some(0)))
    ensures Next(timing, s, Claim("a", {}, Some(0))) == System([first], 0.0, map["a" := Running(0, 0.0)])
  {
    assert SweptTable([job], 0.0) == [job];
  }

  lemma SecondClaim(timing: Timing, s: System, first: Job, second: Job)
    requires timing.lease > 0.0
    requires first == ClaimedBy(NewJob(JobSpec("k", 2, None, 0.0), 0.0), "a", timing.lease, 0.0)
    requires s == System([first], timing.lease, map["a" := Running(0, 0.0)])
    requires second == ClaimedBy(first, "b", timing.lease, timing.lease)
    ensures Enabled(timing, s, Claim("b", {}, Some(0)))
    ensures Next(timing, s, Claim("b", {}, Some(0)))
         == System([second], timing.lease, map["a" := Running(0, 0.0), "b" := Running(0, timing.lease)])
  {
    assert SweptTable([first], timing.lease) == [first];
    assert "b" !in s.workers;
  }

  /** At most one handler per job is ever live exactly when every renewal lands before the lease runs out. */
  lemma OverlapExactly(timing: Timing)
    requires timing.lease > 0.0 && timing.gap >= 0.0
    ensures NeverOverlaps(timing) <==> timing.gap < timing.lease
  {
    if timing.gap < timing.lease {
      forall events, states, i | Run(timing, events, states) && 0 <= i < |states| ensures AtMostOneLive(states[i]) {
        RunsAreSafe(timing, events, states, i);
      }
    } else {
      LateRenewalsOverlap(timing);
    }
  }

  predicate LessThanTwoIntervalsLate(lease: real, late: real) {
    0.0 <= late < 2.0 * HeartbeatInterval(lease)
  }

  predicate BeatsTheLease(lease: real, late: real) {
    HeartbeatInterval(lease) + late < lease
  }

  /** Heartbeats that are always less than two intervals late beat the lease exactly for leases of three seconds up. */
  lemma LeasesThatTolerateLateness(lease: real)
    requires lease > 0.0
    ensures lease >= 3.0 <==> forall late :: LessThanTwoIntervalsLate(lease, late) ==> BeatsTheLease(lease, late)
  {
    if lease < 3.0 {
      var late := if lease <= 1.0 then 0.0 else lease - 1.0;
      assert LessThanTwoIntervalsLate(lease, late) && !BeatsTheLease(lease, late);
    }
  }

  /**
   * With the default interval and renewals at most `late` seconds late, handlers never overlap exactly when such a
   * renewal beats the lease. Renewals on time suffice exactly for leases of more than one second.
   */
  lemma DefaultIntervalExactly(lease: real, late: real)
    requires lease > 0.0 && late >= 0.0
    ensures NeverOverlaps(Timing(lease, HeartbeatInterval(lease) + late)) <==> BeatsTheLease(lease, late)
    ensures NeverOverlaps(Timing(lease, HeartbeatInterval(lease))) <==> lease > 1.0
  {
    OverlapExactly(Timing(lease, HeartbeatInterval(lease) + late));
    OverlapExactly(Timing(lease, HeartbeatInterval(lease)));
  }

  /** A lease of one second can expire before a renewal that is on time. */
  lemma OneSecondLeasesOverlap()
    ensures !NeverOverlaps(Timing(1.0, HeartbeatInterval(1.0)))
  {
    DefaultIntervalExactly(1.0, 0.0);
  }

  /** The default interval is a third of the lease, but never below one second. */
  lemma ThreeHeartbeatsMakeALease(lease: real)
    ensures lease >= 3.0 ==> HeartbeatInterval(lease) + HeartbeatInterval(lease) + HeartbeatInterval(lease) == lease
    ensures lease <= 3.0 ==> HeartbeatInterval(lease) == 1.0
  {}

  /** With the default interval and a lease of at least three seconds, a handler is never run twice at once. */
  lemma DefaultHeartbeatsSuffice(lease: real, late: real)
    requires lease >= 3.0 && LessThanTwoIntervalsLate(lease, late)
    ensures NeverOverlaps(Timing(lease, HeartbeatInterval(lease) + late))
  {
    LeasesThatTolerateLateness(lease);
    assert BeatsTheLease(lease, late);
    OverlapExactly(Timing(lease, HeartbeatInterval(lease) + late));
  }
}
