/** The retrying job queue: services/jobQueue.js over the jobs table of services/jobQueueStore.js. */
module JobQueue {
  import opened Common

  const MIN_JOB_LEASE_MS: nat := 15000
  const STALE_RUNNING_JOB_MS: nat := 300000
  const TERMINAL_JOB_RETENTION: nat := 500
  const MAX_JOB_BATCH_SIZE: nat := 24
  const STALE_SCAN_LIMIT: nat := 200

  datatype JobStatus = Queued | Running | ScheduledRetry | Completed | Failed | Canceled

  datatype Job = Job(
    id: string, status: JobStatus, createdAt: int, attempts: nat, maxAttempts: nat, retryCount: nat,
    retryDelayMs: nat, runtimeLimitMs: nat,
    startedAt: Option<nat>, leaseExpiresAt: Option<nat>, nextRetryAt: Option<nat>)

  type Jobs = map<string, Job>

  function Min(a: int, b: int): int {
    if a < b then a else b
  }

  function Max(a: int, b: int): int {
    if a < b then b else a
  }

  /** A quarter of a minute more than the run may take; the lower bound never decides, the upper one from 285 seconds on. */
  function LeaseDurationMs(runtimeLimitMs: int): (r: nat)
    ensures MIN_JOB_LEASE_MS < r <= STALE_RUNNING_JOB_MS
    ensures r == if runtimeLimitMs <= 1000 then 16000
                 else if runtimeLimitMs <= 285000 then runtimeLimitMs + MIN_JOB_LEASE_MS
                 else STALE_RUNNING_JOB_MS
  {
    Max(MIN_JOB_LEASE_MS, Min(STALE_RUNNING_JOB_MS, Max(1000, runtimeLimitMs) + MIN_JOB_LEASE_MS))
  }

  function Pow2(n: nat): (r: nat)
    ensures r >= 1
  {
    if n == 0 then 1 else 2 * Pow2(n - 1)
  }

  predicate Terminal(status: JobStatus) {
    status.Completed? || status.Failed? || status.Canceled?
  }

  function Terminals(jobs: Jobs): set<string> {
    set id | id in jobs && Terminal(jobs[id].status)
  }

  function Live(jobs: Jobs): set<string> {
    set id | id in jobs && !Terminal(jobs[id].status)
  }

  function Pending(jobs: Jobs): set<string> {
    set id | id in jobs && (jobs[id].status.Queued? || jobs[id].status.ScheduledRetry?)
  }

  function InRun(jobs: Jobs): set<string> {
    set id | id in jobs && jobs[id].status.Running?
  }

  // ----- Pruning -----

  /** `after` is `before` without its oldest terminal rows, of which at most the retention limit stays. */
  ghost predicate PrunedTo(before: Jobs, after: Jobs) {
    && after.Keys <= before.Keys && (forall id :: id in after ==> after[id] == before[id])
    && Live(after) == Live(before)
    && |Terminals(after)| == Min(|Terminals(before)|, TERMINAL_JOB_RETENTION)
    && forall gone, kept :: gone in Terminals(before) && gone !in after && kept in Terminals(after) ==>
         before[gone].createdAt <= before[kept].createdAt
  }

  /** The table after `upsertJob`. */
  ghost predicate Stored(before: Jobs, job: Job, after: Jobs) {
    PrunedTo(before[job.id := job], after)
  }

  /** Only the written job changes, and whatever is not finished then stays. */
  lemma OneWritten(before: Jobs, job: Job, after: Jobs)
    requires Stored(before, job, after)
    ensures after.Keys <= before.Keys + {job.id} && (job.id in after ==> after[job.id] == job)
    ensures forall id :: id in after && id != job.id ==> after[id] == before[id]
    ensures forall id :: id in before && id !in after ==> if id == job.id then Terminal(job.status) else Terminal(before[id].status)
    ensures !Terminal(job.status) ==> job.id in after
  {
    var written := before[job.id := job];
    forall id | id in written && id !in after
      ensures Terminal(written[id].status)
    {
      assert id !in Live(after);
    }
  }

  /** Every job is waiting, running or finished, and never two of these. */
  lemma JobsDivide(jobs: Jobs)
    ensures Pending(jobs) + InRun(jobs) + Terminals(jobs) == jobs.Keys && Live(jobs) == Pending(jobs) + InRun(jobs)
    ensures Pending(jobs) !! InRun(jobs) && Pending(jobs) !! Terminals(jobs) && InRun(jobs) !! Terminals(jobs)
  {
  }

  // ----- Queries -----

  predicate NoLater(jobs: Jobs, a: string, b: string, newestFirst: bool)
    requires a in jobs && b in jobs
  {
    if newestFirst then jobs[a].createdAt >= jobs[b].createdAt else jobs[a].createdAt <= jobs[b].createdAt
  }

  /** `listed` are the first of the candidates by time of creation, in order, as many as the limit allows. */
  ghost predicate Lists(jobs: Jobs, candidates: set<string>, limit: nat, newestFirst: bool, listed: seq<string>)
    requires candidates <= jobs.Keys
  {
    && Distinct(listed) && Elements(listed) <= candidates && |listed| <= limit
    && (|listed| < limit ==> Elements(listed) == candidates)
    && (forall i, j :: 0 <= i < j < |listed| ==> listed[j] in jobs && NoLater(jobs, listed[i], listed[j], newestFirst))
    && forall a, b :: a in listed && b in candidates && b !in listed ==> NoLater(jobs, a, b, newestFirst)
  }

  lemma {:induction false} SomeFirst(jobs: Jobs, ids: set<string>, newestFirst: bool) returns (first: string)
    requires ids != {} && ids <= jobs.Keys
    ensures first in ids && forall id :: id in ids ==> NoLater(jobs, first, id, newestFirst)
    decreases |ids|
  {
    var id :| id in ids;
    if ids == {id} {
      first := id;
    } else {
      var rest := SomeFirst(jobs, ids - {id}, newestFirst);
      assert ids == (ids - {id}) + {id};
      first := if NoLater(jobs, id, rest, newestFirst) then id else rest;
    }
  }

  function Eligible(jobs: Jobs, now: nat): set<string> {
    set id | id in jobs && IsEligible(jobs[id], now)
  }

  // ----- What each operation writes -----

  function NewJob(id: string, createdAt: int, maxAttempts: int, retryDelayMs: int, runtimeLimitMs: int): Job {
    Job(id, Queued, createdAt, 0, Max(1, maxAttempts), 0, Max(100, retryDelayMs), Max(1000, runtimeLimitMs), None, None, None)
  }

  function Requeued(job: Job): Job {
    job.(status := Queued, retryCount := job.retryCount + 1, startedAt := None, leaseExpiresAt := None, nextRetryAt := None)
  }

  function Started(job: Job, now: nat): Job {
    job.(status := Running, attempts := job.attempts + 1, startedAt := Some(now),
         leaseExpiresAt := Some(now + LeaseDurationMs(job.runtimeLimitMs)))
  }

  function Denied(job: Job, now: nat): Job {
    job.(status := Failed, startedAt := if job.startedAt.Some? then job.startedAt else Some(now))
  }

  function Succeeded(job: Job): Job {
    job.(status := Completed, leaseExpiresAt := None, nextRetryAt := None)
  }

  function BackoffMs(job: Job): nat {
    job.retryDelayMs * Pow2(job.retryCount)
  }

  function StaleBackoffMs(job: Job): nat {
    Max(100, job.retryDelayMs)
  }

  /** A failed run is scheduled again as long as attempts remain. */
  function AfterFailure(job: Job, delayMs: nat, now: nat): Job {
    if job.attempts < job.maxAttempts then
      job.(status := ScheduledRetry, leaseExpiresAt := None, nextRetryAt := Some(now + delayMs))
    else job.(status := Failed, leaseExpiresAt := None, nextRetryAt := None)
  }

  function CancelledJob(job: Job): Job {
    job.(status := Canceled, leaseExpiresAt := None, nextRetryAt := None)
  }

  predicate Cancellable(job: Job) {
    job.status.Queued? || job.status.ScheduledRetry?
  }

  predicate Retryable(job: Job) {
    job.status.Failed? || job.status.ScheduledRetry?
  }

  predicate IsStale(job: Job, now: nat) {
    job.status.Running?
    && ((job.leaseExpiresAt.Some? && job.leaseExpiresAt.value <= now)
        || job.startedAt.None? || job.startedAt.value == 0 || now - job.startedAt.value > STALE_RUNNING_JOB_MS)
  }

  predicate IsEligible(job: Job, now: nat) {
    job.status.Queued? || (job.status.ScheduledRetry? && (job.nextRetryAt.None? || job.nextRetryAt.value <= now))
  }

  predicate Saturated(jobs: Jobs, maxPending: nat, maxRunning: nat) {
    |Pending(jobs)| >= maxPending || |InRun(jobs)| >= maxRunning
  }

  /** What a batch remembers of a job: whether it was waiting for a retry when the batch was read. */
  datatype Ticket = Ticket(id: string, scheduled: bool)

  datatype Outcome = NotAdmitted | Succeeds | Fails

  /** One pass of the loop body of `runPendingJobs` over a job. */
  function RunOnce(job: Job, scheduled: bool, outcome: Outcome, now: nat): (r: Job)
    ensures r.id == job.id
  {
    var queued := if scheduled then Requeued(job) else job;
    if queued.status.Canceled? then queued
    else
      match outcome
      case NotAdmitted => Denied(queued, now)
      case Succeeds => Succeeded(Started(queued, now))
      case Fails => AfterFailure(Started(queued, now), BackoffMs(Started(queued, now)), now)
  }

  // ----- What one pass comes to -----

  /** The delay doubled `n` times. */
  function Doubled(delay: nat, n: nat): nat {
    if n == 0 then delay else 2 * Doubled(delay, n - 1)
  }

  lemma {:induction false} PowerDoubles(delay: nat, n: nat)
    ensures delay * Pow2(n) == Doubled(delay, n)
  {
    if n > 0 {
      PowerDoubles(delay, n - 1);
      assert delay * Pow2(n) == 2 * (delay * Pow2(n - 1));
    }
  }

  /** Whatever its outcome, a pass decides a waiting job: an inadmissible job fails without an attempt, success completes it, and a
      failure has it wait the delay doubled once per retry so far, or fails it with the last attempt. */
  lemma OnePassDecides(job: Job, outcome: Outcome, now: nat)
    requires Cancellable(job)
    ensures var r := RunOnce(job, job.status.ScheduledRetry?, outcome, now);
            var retries := job.retryCount + if job.status.ScheduledRetry? then 1 else 0;
      && r.maxAttempts == job.maxAttempts && r.retryDelayMs == job.retryDelayMs && r.retryCount == retries
      && match outcome
         case NotAdmitted => r.status.Failed? && r.attempts == job.attempts
         case Succeeds => r.status.Completed? && r.attempts == job.attempts + 1
         case Fails =>
           && r.attempts == job.attempts + 1
           && if r.attempts < job.maxAttempts
              then r.status.ScheduledRetry? && r.nextRetryAt == Some(now + Doubled(job.retryDelayMs, retries))
              else r.status.Failed?
  {
    PowerDoubles(job.retryDelayMs, job.retryCount);
    PowerDoubles(job.retryDelayMs, job.retryCount + 1);
    hide Pow2, Doubled;
  }

  /** A job that waits for its retry may be taken up exactly from that moment on. */
  lemma WaitsForItsTime(job: Job, delayMs: nat, now: nat, later: nat)
    ensures IsEligible(AfterFailure(job, delayMs, now), later) <==> job.attempts < job.maxAttempts && later >= now + delayMs
  {
  }

  /** A job that was started is stale exactly when its lease has run out; at time zero it always is. */
  lemma StaleExactlyAfterLease(job: Job, now: nat, later: nat)
    requires now <= later
    ensures IsStale(Started(job, now), later) <==>
      now == 0 || later >= now + (if job.runtimeLimitMs <= 1000 then 16000
                                  else if job.runtimeLimitMs <= 285000 then job.runtimeLimitMs + 15000 else 300000)
  {
  }

  // ----- The queue -----

  class Queue {
    const maxPendingJobs: nat
    const maxRunningJobs: nat
    var jobs: Jobs

    constructor (maxPendingJobs: nat, maxRunningJobs: nat)
      ensures this.maxPendingJobs == maxPendingJobs && this.maxRunningJobs == maxRunningJobs && jobs == map[]
    {
      this.maxPendingJobs, this.maxRunningJobs := maxPendingJobs, maxRunningJobs;
      jobs := map[];
    }

    /** One of the oldest terminal jobs goes. */
    method DropOldest() returns (id: string)
      requires Terminals(jobs) != {}
      modifies this
      ensures id in Terminals(old(jobs)) && forall other :: other in Terminals(old(jobs)) ==> old(jobs)[id].createdAt <= old(jobs)[other].createdAt
      ensures jobs == old(jobs) - {id} && Terminals(jobs) == Terminals(old(jobs)) - {id} && Live(jobs) == Live(old(jobs))
    {
      ghost var oldest := SomeFirst(jobs, Terminals(jobs), false);
      id :| id in Terminals(jobs) && forall other :: other in Terminals(jobs) ==> jobs[id].createdAt <= jobs[other].createdAt;
      jobs := jobs - {id};
    }

    method UpsertJob(job: Job)
      modifies this
      ensures Stored(old(jobs), job, jobs)
    {
      jobs := jobs[job.id := job];
      ghost var before := jobs;
      while |Terminals(jobs)| > TERMINAL_JOB_RETENTION
        invariant jobs.Keys <= before.Keys && forall id :: id in jobs ==> jobs[id] == before[id]
        invariant Live(jobs) == Live(before)
        invariant |Terminals(jobs)| >= Min(|Terminals(before)|, TERMINAL_JOB_RETENTION) && Terminals(jobs) <= Terminals(before)
        invariant |Terminals(jobs)| <= |Terminals(before)|
        invariant forall gone, kept :: gone in Terminals(before) && gone !in jobs && kept in Terminals(jobs) ==>
          before[gone].createdAt <= before[kept].createdAt
        decreases |Terminals(jobs)|
      {
        var id := DropOldest();
      }
    }

    /** `updateJob` with the value the updater returns; a missing job is left missing. */
    method UpdateJob(id: string, next: Job) returns (found: bool)
      requires next.id == id
      modifies this
      ensures found == (id in old(jobs))
      ensures if found then Stored(old(jobs), next, jobs) else jobs == old(jobs)
    {
      found := id in jobs;
      if found {
        UpsertJob(next);
      }
    }

    method EnqueueJob(id: string, createdAt: int, maxAttempts: int, retryDelayMs: int, runtimeLimitMs: int) returns (admitted: bool)
      modifies this
      ensures admitted == !Saturated(old(jobs), maxPendingJobs, maxRunningJobs)
      ensures admitted ==>
        && id in jobs && jobs[id].status.Queued? && jobs[id].attempts == jobs[id].retryCount == 0 && jobs[id].nextRetryAt.None?
        && jobs[id].maxAttempts == (if maxAttempts < 1 then 1 else maxAttempts)
        && jobs[id].retryDelayMs == (if retryDelayMs < 100 then 100 else retryDelayMs)
        && jobs[id].runtimeLimitMs == (if runtimeLimitMs < 1000 then 1000 else runtimeLimitMs)
      ensures if admitted then Stored(old(jobs), NewJob(id, createdAt, maxAttempts, retryDelayMs, runtimeLimitMs), jobs)
              else jobs == old(jobs)
    {
      var pending, running := |Pending(jobs)|, |InRun(jobs)|;
      if pending >= maxPendingJobs || running >= maxRunningJobs {
        return false;
      }
      ghost var before := jobs;
      UpsertJob(NewJob(id, createdAt, maxAttempts, retryDelayMs, runtimeLimitMs));
      OneWritten(before, NewJob(id, createdAt, maxAttempts, retryDelayMs, runtimeLimitMs), jobs);
      admitted := true;
    }

    method CancelJob(id: string)
      requires id in jobs ==> jobs[id].id == id
      modifies this
      ensures if id !in old(jobs) then jobs == old(jobs)
              else Stored(old(jobs), if Cancellable(old(jobs)[id]) then CancelledJob(old(jobs)[id]) else old(jobs)[id], jobs)
      ensures id in old(jobs) && id in jobs ==>
        if old(jobs)[id].status.Queued? || old(jobs)[id].status.ScheduledRetry?
        then jobs[id].status.Canceled? && jobs[id].attempts == old(jobs)[id].attempts && jobs[id].nextRetryAt.None?
        else jobs[id] == old(jobs)[id]
      ensures id in old(jobs) && id !in jobs ==> !old(jobs)[id].status.Running?
    {
      if id in jobs {
        var current := jobs[id];
        ghost var before := jobs;
        var _ := UpdateJob(id, if Cancellable(current) then CancelledJob(current) else current);
        OneWritten(before, if Cancellable(current) then CancelledJob(current) else current, jobs);
      }
    }

    method RetryJob(id: string)
      requires id in jobs ==> jobs[id].id == id
      modifies this
      ensures if id !in old(jobs) then jobs == old(jobs)
              else Stored(old(jobs), if Retryable(old(jobs)[id]) then Requeued(old(jobs)[id]) else old(jobs)[id], jobs)
      ensures id in old(jobs) && id in jobs ==>
        if old(jobs)[id].status.Failed? || old(jobs)[id].status.ScheduledRetry?
        then jobs[id].status.Queued? && jobs[id].attempts == old(jobs)[id].attempts && jobs[id].retryCount == old(jobs)[id].retryCount + 1
        else jobs[id] == old(jobs)[id]
    {
      if id in jobs {
        var current := jobs[id];
        var _ := UpdateJob(id, if Retryable(current) then Requeued(current) else current);
      }
    }

    /** The part of `runJob` before the processor runs. */
    method StartJob(id: string, processorAdmitted: bool, now: nat) returns (running: bool)
      requires id in jobs ==> jobs[id].id == id
      modifies this
      ensures running == (id in old(jobs) && !old(jobs)[id].status.Canceled? && processorAdmitted)
      ensures if id !in old(jobs) || old(jobs)[id].status.Canceled? then jobs == old(jobs)
              else Stored(old(jobs), if processorAdmitted then Started(old(jobs)[id], now) else Denied(old(jobs)[id], now), jobs)
    {
      if id !in jobs || jobs[id].status.Canceled? {
        return false;
      }
      running := processorAdmitted;
      var _ := UpdateJob(id, if processorAdmitted then Started(jobs[id], now) else Denied(jobs[id], now));
    }

    /** The part of `runJob` after the processor has returned, thrown or run out of time. */
    method FinishJob(id: string, succeeded: bool, now: nat)
      requires id in jobs ==> jobs[id].id == id
      modifies this
      ensures if id !in old(jobs) then jobs == old(jobs)
              else Stored(old(jobs), if succeeded then Succeeded(old(jobs)[id])
                                     else AfterFailure(old(jobs)[id], BackoffMs(old(jobs)[id]), now), jobs)
    {
      if id in jobs {
        var current := jobs[id];
        if succeeded {
          UpsertJob(Succeeded(current));
        } else {
          var retryDelayMs := current.retryDelayMs * Pow2(current.retryCount);
          UpsertJob(AfterFailure(current, retryDelayMs, now));
        }
      }
    }

    /** `ORDER BY created_at LIMIT n` over some of the jobs. */
    method ListJobs(candidates: set<string>, limit: nat, newestFirst: bool) returns (listed: seq<string>)
      requires candidates <= jobs.Keys
      ensures Lists(jobs, candidates, limit, newestFirst, listed)
    {
      listed := [];
      var rest := candidates;
      while |listed| < limit && rest != {}
        invariant rest <= candidates && |listed| <= limit
        invariant Distinct(listed) && forall id :: id in listed <==> id in candidates && id !in rest
        invariant forall i, j :: 0 <= i < j < |listed| ==> NoLater(jobs, listed[i], listed[j], newestFirst)
        invariant forall a, b :: a in listed && b in rest ==> NoLater(jobs, a, b, newestFirst)
        decreases rest
      {
        ghost var first := SomeFirst(jobs, rest, newestFirst);
        var id :| id in rest && forall other :: other in rest ==> NoLater(jobs, id, other, newestFirst);
        listed := listed + [id];
        rest := rest - {id};
      }
    }

    method RecoverIfStale(id: string, now: nat)
      requires forall other :: other in jobs ==> jobs[other].id == other
      modifies this
      ensures jobs.Keys <= old(jobs).Keys && forall other :: other in jobs ==> jobs[other].id == other
      ensures forall other :: other in jobs ==>
        jobs[other] == if other == id && IsStale(old(jobs)[other], now)
                       then AfterFailure(old(jobs)[other], StaleBackoffMs(old(jobs)[other]), now) else old(jobs)[other]
      ensures forall other :: other in old(jobs) && other !in jobs ==>
        Terminal(old(jobs)[other].status)
        || (other == id && IsStale(old(jobs)[other], now) && old(jobs)[other].attempts >= old(jobs)[other].maxAttempts)
    {
      if id in jobs && IsStale(jobs[id], now) {
        ghost var was := jobs;
        UpsertJob(AfterFailure(jobs[id], StaleBackoffMs(jobs[id]), now));
        assert forall other :: other in was && other !in jobs ==> other !in Live(was[id := AfterFailure(was[id], StaleBackoffMs(was[id]), now)]);
      }
    }

    /** Every stale job among those listed is rescheduled or failed. */
    method RecoverListed(listed: seq<string>, now: nat)
      requires Distinct(listed) && forall id :: id in jobs ==> jobs[id].id == id
      modifies this
      ensures jobs.Keys <= old(jobs).Keys
      ensures forall id :: id in jobs ==>
        jobs[id] == if id in listed && IsStale(old(jobs)[id], now)
                    then AfterFailure(old(jobs)[id], StaleBackoffMs(old(jobs)[id]), now) else old(jobs)[id]
      ensures forall id :: id in old(jobs) && id !in jobs ==>
        Terminal(old(jobs)[id].status) || (id in listed && IsStale(old(jobs)[id], now) && old(jobs)[id].attempts >= old(jobs)[id].maxAttempts)
    {
      hide IsStale, StaleBackoffMs;
      ghost var before := jobs;
      for k := 0 to |listed|
        invariant forall id :: id in jobs ==> id in before && jobs[id].id == id
        invariant forall id :: id in jobs ==>
          jobs[id] == if id in listed[..k] && IsStale(before[id], now)
                      then AfterFailure(before[id], StaleBackoffMs(before[id]), now) else before[id]
        invariant forall id :: id in before && id !in jobs ==>
          Terminal(before[id].status)
          || (id in listed[..k] && IsStale(before[id], now) && before[id].attempts >= before[id].maxAttempts)
      {
        assert listed[..k + 1] == listed[..k] + [listed[k]];
        assert listed[k] !in listed[..k];
        RecoverIfStale(listed[k], now);
      }
      assert listed[..|listed|] == listed;
    }

    /** Only the newest jobs are looked at, no more than the scan limit. */
    method RecoverStaleJobs(now: nat) returns (listed: seq<string>)
      requires forall id :: id in jobs ==> jobs[id].id == id
      modifies this
      ensures Lists(old(jobs), old(jobs).Keys, STALE_SCAN_LIMIT, true, listed)
      ensures jobs.Keys <= old(jobs).Keys
      ensures forall id :: id in jobs ==>
        jobs[id] == if id in listed && IsStale(old(jobs)[id], now)
                    then AfterFailure(old(jobs)[id], StaleBackoffMs(old(jobs)[id]), now) else old(jobs)[id]
      ensures forall id :: id in old(jobs) && id !in jobs ==>
        Terminal(old(jobs)[id].status) || (id in listed && IsStale(old(jobs)[id], now) && old(jobs)[id].attempts >= old(jobs)[id].maxAttempts)
    {
      listed := ListJobs(jobs.Keys, STALE_SCAN_LIMIT, true);
      RecoverListed(listed, now);
    }

    /** One iteration of `runPendingJobs`: back to the queue if it was waiting, then run. */
    method RunTicket(ticket: Ticket, outcome: Outcome, now: nat)
      requires ticket.id in jobs ==> jobs[ticket.id].id == ticket.id
      modifies this
      ensures jobs.Keys <= old(jobs).Keys
      ensures ticket.id in jobs ==> jobs[ticket.id] == RunOnce(old(jobs)[ticket.id], ticket.scheduled, outcome, now)
      ensures forall id :: id in jobs && id != ticket.id ==> jobs[id] == old(jobs)[id]
      ensures forall id :: id in old(jobs) && id !in jobs ==>
        Terminal(old(jobs)[id].status)
        || (id == ticket.id && Terminal(RunOnce(old(jobs)[id], ticket.scheduled, outcome, now).status))
    {
      hide Stored;
      ghost var before := jobs;
      if ticket.scheduled && ticket.id in jobs {
        var _ := UpdateJob(ticket.id, Requeued(jobs[ticket.id]));
        OneWritten(before, Requeued(before[ticket.id]), jobs);
      }
      ghost var queued := jobs;
      var running := StartJob(ticket.id, !outcome.NotAdmitted?, now);
      if ticket.id in queued && !queued[ticket.id].status.Canceled? {
        OneWritten(queued, if running then Started(queued[ticket.id], now) else Denied(queued[ticket.id], now), jobs);
      }
      ghost var started := jobs;
      if running {
        FinishJob(ticket.id, outcome.Succeeds?, now);
        if ticket.id in started {
          var run := started[ticket.id];
          OneWritten(started, if outcome.Succeeds? then Succeeded(run) else AfterFailure(run, BackoffMs(run), now), jobs);
        }
      }
    }

    /** A batch nobody interferes with: the oldest eligible jobs, no more than the batch limit, are each taken through one
        pass, and nothing else changes but by pruning. */
    method RunPendingJobs(outcome: string -> Outcome, now: nat) returns (batch: seq<string>)
      requires forall id :: id in jobs ==> jobs[id].id == id
      modifies this
      ensures Lists(old(jobs), Eligible(old(jobs), now), MAX_JOB_BATCH_SIZE, false, batch)
      ensures jobs.Keys <= old(jobs).Keys
      ensures forall id :: id in jobs ==>
        jobs[id] == if id in batch then RunOnce(old(jobs)[id], old(jobs)[id].status.ScheduledRetry?, outcome(id), now) else old(jobs)[id]
      ensures forall id :: id in old(jobs) && id !in jobs ==>
        Terminal(old(jobs)[id].status)
        || (id in batch && Terminal(RunOnce(old(jobs)[id], old(jobs)[id].status.ScheduledRetry?, outcome(id), now).status))
    {
      hide RunOnce, Terminal;
      ghost var before := jobs;
      var eligible := Eligible(jobs, now);
      batch := ListJobs(eligible, MAX_JOB_BATCH_SIZE, false);
      var tickets := seq(|batch|, i requires 0 <= i < |batch| && batch[i] in jobs reads this => Ticket(batch[i], jobs[batch[i]].status.ScheduledRetry?));
      for k := 0 to |batch|
        invariant jobs.Keys <= before.Keys
        invariant forall id :: id in jobs ==>
          jobs[id] == if id in batch[..k] then RunOnce(before[id], before[id].status.ScheduledRetry?, outcome(id), now) else before[id]
        invariant forall id :: id in jobs ==> jobs[id].id == id
        invariant forall id :: id in before && id !in jobs ==>
          Terminal(before[id].status)
          || (id in batch[..k] && Terminal(RunOnce(before[id], before[id].status.ScheduledRetry?, outcome(id), now).status))
      {
        var id := batch[k];
        assert batch[..k + 1] == batch[..k] + [id];
        assert id !in batch[..k];
        RunTicket(tickets[k], outcome(id), now);
        assert forall other :: other in batch[..k + 1] <==> other == id || other in batch[..k];
      }
      assert batch[..|batch|] == batch;
    }
  }
}
