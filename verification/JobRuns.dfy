/** Whole runs of the job queue with one worker: callers may enqueue, cancel and retry between any two steps of a batch,
    and the worker may die at any point. */
module JobRuns {
  import opened Common
  import opened JobQueue

  datatype Limits = Limits(maxPending: nat, maxRunning: nat)

  /** The table, the worker's view of its batch, and three counters kept for the statements below: manual retries and
      scheduled backoff per job, and how often a job came back to life other than by being admitted. */
  datatype State = State(
    jobs: Jobs, batch: seq<Ticket>, current: Option<string>, now: nat,
    manual: map<string, nat>, backoff: map<string, nat>, revived: nat)

  datatype Event =
    | Enqueue(job: Job)
    | Cancel(id: string)
    | ManualRetry(id: string)
    | RecoverStale(id: string)
    | ReadBatch(tickets: seq<Ticket>)
    | Requeue
    | StartHead(admitted: bool)
    | Finish(succeeded: bool)
    | Crash
    | Tick(ms: nat)

  const Idle := State(map[], [], None, 0, map[], map[], 0)

  function Tally(m: map<string, nat>, id: string): nat {
    if id in m then m[id] else 0
  }

  function Add(m: map<string, nat>, id: string, n: nat): map<string, nat> {
    m[id := Tally(m, id) + n]
  }

  predicate Unused(s: State, id: string) {
    id !in s.jobs && id !in s.manual && id !in s.backoff && s.current != Some(id) && forall t :: t in s.batch ==> t.id != id
  }

  predicate IsNew(job: Job) {
    job == NewJob(job.id, job.createdAt, job.maxAttempts, job.retryDelayMs, job.runtimeLimitMs)
  }

  /** Only the table changes. */
  ghost predicate Stores(s: State, job: Job, s': State) {
    Stored(s.jobs, job, s'.jobs) && s' == s.(jobs := s'.jobs)
  }

  ghost predicate Next(c: Limits, s: State, e: Event, s': State) {
    match e
    case Enqueue(job) =>
      && Unused(s, job.id) && IsNew(job)
      && if Saturated(s.jobs, c.maxPending, c.maxRunning) then s' == s else Stores(s, job, s')
    case Cancel(id) =>
      id in s.jobs && Stores(s, if Cancellable(s.jobs[id]) then CancelledJob(s.jobs[id]) else s.jobs[id], s')
    case ManualRetry(id) =>
      && id in s.jobs
      && if Retryable(s.jobs[id]) then
           Stores(s.(manual := Add(s.manual, id, 1), revived := s.revived + if s.jobs[id].status.Failed? then 1 else 0),
                  Requeued(s.jobs[id]), s')
         else Stores(s, s.jobs[id], s')
    case RecoverStale(id) =>
      && s.batch == [] && s.current.None? && id in s.jobs && IsStale(s.jobs[id], s.now)
      && var delay := if s.jobs[id].attempts < s.jobs[id].maxAttempts then StaleBackoffMs(s.jobs[id]) else 0;
         Stores(s.(backoff := Add(s.backoff, id, delay)), AfterFailure(s.jobs[id], StaleBackoffMs(s.jobs[id]), s.now), s')
    case ReadBatch(tickets) =>
      && s.batch == [] && s.current.None? && |tickets| <= MAX_JOB_BATCH_SIZE
      && (forall i, j :: 0 <= i < j < |tickets| ==> tickets[i].id != tickets[j].id)
      && (forall t :: t in tickets ==>
            t.id in s.jobs && IsEligible(s.jobs[t.id], s.now) && t.scheduled == s.jobs[t.id].status.ScheduledRetry?)
      && s' == s.(batch := tickets)
    case Requeue =>
      && s.current.None? && s.batch != [] && s.batch[0].scheduled
      && var queued := s.(batch := [Ticket(s.batch[0].id, false)] + s.batch[1..]); var id := s.batch[0].id;
         if id in s.jobs then
           Stores(queued.(revived := s.revived + if s.jobs[id].status.Canceled? then 1 else 0), Requeued(s.jobs[id]), s')
         else s' == queued
    case StartHead(admitted) =>
      && s.current.None? && s.batch != [] && !s.batch[0].scheduled
      && var rest := s.(batch := s.batch[1..]); var id := s.batch[0].id;
         if id !in s.jobs || s.jobs[id].status.Canceled? then s' == rest
         else if admitted then Stores(rest.(current := Some(id)), Started(s.jobs[id], s.now), s')
         else Stores(rest, Denied(s.jobs[id], s.now), s')
    case Finish(succeeded) =>
      && s.current.Some?
      && var idle, id := s.(current := None), s.current.value;
         if id !in s.jobs then s' == idle
         else if succeeded then Stores(idle, Succeeded(s.jobs[id]), s')
         else
           var delay := if s.jobs[id].attempts < s.jobs[id].maxAttempts then BackoffMs(s.jobs[id]) else 0;
           Stores(idle.(backoff := Add(s.backoff, id, delay)), AfterFailure(s.jobs[id], BackoffMs(s.jobs[id]), s.now), s')
    case Crash => s' == s.(batch := [], current := None)
    case Tick(ms) => s' == s.(now := s.now + ms)
  }

  ghost predicate IsRun(c: Limits, states: seq<State>, events: seq<Event>) {
    && |states| == |events| + 1 && states[0] == Idle
    && forall i :: 0 <= i < |events| ==> Next(c, states[i], events[i], states[i + 1])
  }

  // ----- The attempt and backoff arithmetic -----

  /** The sum of the first `n` backoff delays: delay, 2 delay, 4 delay, ... */
  function Budget(delay: nat, n: nat): nat {
    delay * (Pow2(n) - 1)
  }

  lemma BudgetStep(delay: nat, n: nat)
    ensures Budget(delay, n) + delay * Pow2(n) == Budget(delay, n + 1)
  {
    assert Pow2(n + 1) == 2 * Pow2(n);
    assert delay * (Pow2(n) - 1) + delay * Pow2(n) == delay * (2 * Pow2(n) - 1);
  }

  lemma {:induction false} BudgetGrows(delay: nat, n: nat, m: nat)
    requires n <= m
    ensures Budget(delay, n) <= Budget(delay, m)
    decreases m - n
  {
    if n < m {
      BudgetStep(delay, n);
      BudgetGrows(delay, n + 1, m);
    }
  }

  lemma DelayWithinPower(delay: nat, n: nat)
    ensures delay <= delay * Pow2(n)
  {
    assert delay * Pow2(n) == delay + delay * (Pow2(n) - 1);
  }

  /** What holds of a job given its manual retries and the backoff scheduled for it so far. */
  ghost predicate JobOk(job: Job, manual: nat, backoff: nat) {
    && job.maxAttempts >= 1 && job.retryDelayMs >= 100
    && (match job.status
        case Queued => job.attempts < job.maxAttempts + manual
        case ScheduledRetry => 1 <= job.attempts < job.maxAttempts
        case Canceled => job.attempts < job.maxAttempts + manual
        case Running => 1 <= job.attempts <= job.maxAttempts + manual
        case _ => job.attempts <= job.maxAttempts + manual)
    && (manual == 0 ==>
          match job.status
          case Queued => job.retryCount == job.attempts && backoff <= Budget(job.retryDelayMs, job.attempts)
          case ScheduledRetry => job.retryCount + 1 == job.attempts && backoff <= Budget(job.retryDelayMs, job.attempts)
          case Canceled => backoff <= Budget(job.retryDelayMs, job.attempts)
          case Running => job.retryCount + 1 == job.attempts && backoff <= Budget(job.retryDelayMs, job.attempts - 1)
          case _ => backoff <= Budget(job.retryDelayMs, job.maxAttempts - 1))
  }

  /** A ticket that says "waiting for a retry" may be stale, but only because of a cancellation or a manual retry. */
  ghost predicate TicketOk(s: State, t: Ticket) {
    t.id in s.jobs ==>
      var job := s.jobs[t.id];
      if t.scheduled then
        && (job.status.ScheduledRetry? || job.status.Canceled? || (job.status.Queued? && Tally(s.manual, t.id) > 0))
        && (Tally(s.manual, t.id) == 0 ==> job.retryCount + 1 == job.attempts)
      else job.status.Queued? || job.status.Canceled?
  }

  ghost predicate Inv(s: State) {
    && (forall id :: id in s.jobs ==> s.jobs[id].id == id && JobOk(s.jobs[id], Tally(s.manual, id), Tally(s.backoff, id)))
    && (forall i, j :: 0 <= i < j < |s.batch| ==> s.batch[i].id != s.batch[j].id)
    && (forall t :: t in s.batch ==> TicketOk(s, t) && s.current != Some(t.id))
    && (s.current.Some? && s.current.value in s.jobs ==> s.jobs[s.current.value].status.Running?)
  }

  /** Storing a row leaves that row, if it survives pruning, and the others as they were. */
  lemma StoredRows(before: Jobs, job: Job, after: Jobs)
    requires Stored(before, job, after)
    ensures forall id :: id in after ==> (id == job.id || id in before) && after[id] == if id == job.id then job else before[id]
  {
  }

  /** A move that rewrites one row, with its counters, and shortens or keeps the batch. */
  lemma RowInv(s: State, mid: State, job: Job, s': State)
    requires Inv(s) && Stores(mid, job, s') && mid.jobs == s.jobs
    requires forall id :: id != job.id ==>
      Tally(mid.manual, id) == Tally(s.manual, id) && Tally(mid.backoff, id) == Tally(s.backoff, id)
    requires JobOk(job, Tally(mid.manual, job.id), Tally(mid.backoff, job.id))
    requires forall i, j :: 0 <= i < j < |mid.batch| ==> mid.batch[i].id != mid.batch[j].id
    requires forall t :: t in mid.batch ==> mid.current != Some(t.id)
    requires forall t :: t in mid.batch && t.id != job.id ==> t in s.batch
    requires forall t :: t in mid.batch && t.id == job.id ==> TicketOk(mid.(jobs := map[job.id := job]), t)
    requires mid.current.Some? ==> if mid.current.value == job.id then job.status.Running? else mid.current == s.current
    ensures Inv(s')
  {
    hide JobOk;
    StoredRows(s.jobs, job, s'.jobs);
    forall t | t in s'.batch
      ensures TicketOk(s', t)
    {
      if t.id != job.id {
        assert TicketOk(s, t);
      } else {
        assert TicketOk(mid.(jobs := map[job.id := job]), t);
      }
    }
  }

  lemma NextKeepsInv(c: Limits, s: State, e: Event, s': State)
    requires Inv(s) && Next(c, s, e, s')
    ensures Inv(s')
  {
    match e
    case Enqueue(job) => if !Saturated(s.jobs, c.maxPending, c.maxRunning) { EnqueueInv(c, s, job, s'); }
    case Cancel(id) => CancelInv(c, s, id, s');
    case ManualRetry(id) => ManualRetryInv(c, s, id, s');
    case RecoverStale(id) => RecoverStaleInv(c, s, id, s');
    case Requeue => RequeueInv(c, s, s');
    case StartHead(admitted) => StartInv(c, s, admitted, s');
    case Finish(succeeded) => FinishInv(c, s, succeeded, s');
    case _ =>
  }

  lemma EnqueueInv(c: Limits, s: State, job: Job, s': State)
    requires Inv(s) && Next(c, s, Enqueue(job), s') && !Saturated(s.jobs, c.maxPending, c.maxRunning)
    ensures Inv(s')
  {
    RowInv(s, s, job, s');
  }

  lemma CancelInv(c: Limits, s: State, id: string, s': State)
    requires Inv(s) && Next(c, s, Cancel(id), s')
    ensures Inv(s')
  {
    var job := if Cancellable(s.jobs[id]) then CancelledJob(s.jobs[id]) else s.jobs[id];
    forall t | t in s.batch && t.id == job.id
      ensures TicketOk(s.(jobs := map[job.id := job]), t)
    {
      assert TicketOk(s, t);
    }
    RowInv(s, s, job, s');
  }

  lemma ManualRetryInv(c: Limits, s: State, id: string, s': State)
    requires Inv(s) && Next(c, s, ManualRetry(id), s')
    ensures Inv(s')
  {
    var job := s.jobs[id];
    forall t | t in s.batch && t.id == id
      ensures TicketOk(s, t)
    {
    }
    if Retryable(job) {
      var mid := s.(manual := Add(s.manual, id, 1), revived := s.revived + if job.status.Failed? then 1 else 0);
      RowInv(s, mid, Requeued(job), s');
    } else {
      RowInv(s, s, job, s');
    }
  }

  lemma FailureOk(job: Job, manual: nat, backoff: nat, delay: nat, now: nat)
    requires JobOk(job, manual, backoff) && job.status.Running? && (delay == BackoffMs(job) || delay == StaleBackoffMs(job))
    ensures JobOk(AfterFailure(job, delay, now), manual, backoff + if job.attempts < job.maxAttempts then delay else 0)
  {
    if manual == 0 {
      BudgetStep(job.retryDelayMs, job.attempts - 1);
      DelayWithinPower(job.retryDelayMs, job.attempts - 1);
      BudgetGrows(job.retryDelayMs, job.attempts - 1, job.maxAttempts - 1);
    }
    hide Budget;
  }

  lemma RecoverStaleInv(c: Limits, s: State, id: string, s': State)
    requires Inv(s) && Next(c, s, RecoverStale(id), s')
    ensures Inv(s')
  {
    var job := s.jobs[id];
    var delay := if job.attempts < job.maxAttempts then StaleBackoffMs(job) else 0;
    FailureOk(job, Tally(s.manual, id), Tally(s.backoff, id), StaleBackoffMs(job), s.now);
    RowInv(s, s.(backoff := Add(s.backoff, id, delay)), AfterFailure(job, StaleBackoffMs(job), s.now), s');
  }

  lemma RequeueInv(c: Limits, s: State, s': State)
    requires Inv(s) && Next(c, s, Requeue, s')
    ensures Inv(s')
  {
    var head := s.batch[0];
    var queued := s.(batch := [Ticket(head.id, false)] + s.batch[1..]);
    assert TicketOk(s, head);
    forall t | t in queued.batch
      ensures t == Ticket(head.id, false) || (t in s.batch && t.id != head.id)
    {
      if t in s.batch[1..] {
        TailOk(s, t);
      }
    }
    forall i, j | 0 <= i < j < |queued.batch|
      ensures queued.batch[i].id != queued.batch[j].id
    {
      assert s.batch[i].id != s.batch[j].id;
    }
    if head.id in s.jobs {
      var job := s.jobs[head.id];
      RowInv(s, queued.(revived := s.revived + if job.status.Canceled? then 1 else 0), Requeued(job), s');
    } else {
      forall t | t in s'.batch
        ensures TicketOk(s', t)
      {
        if t.id != head.id {
          assert TicketOk(s, t);
        }
      }
    }
  }

  lemma TailOk(s: State, t: Ticket)
    requires Inv(s) && s.batch != [] && t in s.batch[1..]
    ensures t in s.batch && t.id != s.batch[0].id && TicketOk(s, t)
  {
    var i :| 0 <= i < |s.batch[1..]| && s.batch[1..][i] == t;
    assert s.batch[i + 1] == t;
  }

  lemma RestOk(s: State)
    requires Inv(s) && s.batch != []
    ensures TicketOk(s, s.batch[0])
    ensures forall t :: t in s.batch[1..] ==> t in s.batch && t.id != s.batch[0].id && TicketOk(s, t)
  {
    forall t | t in s.batch[1..]
      ensures t in s.batch && t.id != s.batch[0].id && TicketOk(s, t)
    {
      TailOk(s, t);
    }
    assert s.batch[0] in s.batch;
  }

  lemma StartInv(c: Limits, s: State, admitted: bool, s': State)
    requires Inv(s) && Next(c, s, StartHead(admitted), s')
    ensures Inv(s')
  {
    RestOk(s);
    var id, rest := s.batch[0].id, s.(batch := s.batch[1..]);
    if id in s.jobs && !s.jobs[id].status.Canceled? {
      if admitted {
        HeadStarts(s, s');
      } else {
        HeadDenied(s, s');
      }
    }
  }

  lemma HeadStarts(s: State, s': State)
    requires Inv(s) && s.current.None? && s.batch != [] && !s.batch[0].scheduled
    requires s.batch[0].id in s.jobs && !s.jobs[s.batch[0].id].status.Canceled?
    requires Stores(s.(batch := s.batch[1..], current := Some(s.batch[0].id)), Started(s.jobs[s.batch[0].id], s.now), s')
    ensures Inv(s')
  {
    RestOk(s);
    var id := s.batch[0].id;
    StartedOk(s.jobs[id], Tally(s.manual, id), Tally(s.backoff, id), s.now);
    hide JobOk, TicketOk, Stores;
    RowInv(s, s.(batch := s.batch[1..], current := Some(id)), Started(s.jobs[id], s.now), s');
  }

  lemma HeadDenied(s: State, s': State)
    requires Inv(s) && s.current.None? && s.batch != [] && !s.batch[0].scheduled
    requires s.batch[0].id in s.jobs && !s.jobs[s.batch[0].id].status.Canceled?
    requires Stores(s.(batch := s.batch[1..]), Denied(s.jobs[s.batch[0].id], s.now), s')
    ensures Inv(s')
  {
    RestOk(s);
    var id := s.batch[0].id;
    DeniedOk(s.jobs[id], Tally(s.manual, id), Tally(s.backoff, id), s.now);
    hide JobOk, TicketOk, Stores;
    RowInv(s, s.(batch := s.batch[1..]), Denied(s.jobs[id], s.now), s');
  }

  lemma StartedOk(job: Job, manual: nat, backoff: nat, now: nat)
    requires JobOk(job, manual, backoff) && job.status.Queued?
    ensures JobOk(Started(job, now), manual, backoff)
  {
  }

  lemma DeniedOk(job: Job, manual: nat, backoff: nat, now: nat)
    requires JobOk(job, manual, backoff) && job.status.Queued?
    ensures JobOk(Denied(job, now), manual, backoff)
  {
    if manual == 0 {
      BudgetGrows(job.retryDelayMs, job.attempts, job.maxAttempts - 1);
    }
    hide Budget;
  }

  lemma FinishInv(c: Limits, s: State, succeeded: bool, s': State)
    requires Inv(s) && Next(c, s, Finish(succeeded), s')
    ensures Inv(s')
  {
    var id := s.current.value;
    var idle := s.(current := None);
    if id !in s.jobs {
      forall t | t in s'.batch
        ensures TicketOk(s', t)
      {
        assert TicketOk(s, t);
      }
    } else {
      var job := s.jobs[id];
      if succeeded {
        SucceededOk(job, Tally(s.manual, id), Tally(s.backoff, id));
        RowInv(s, idle, Succeeded(job), s');
      } else {
        var delay := if job.attempts < job.maxAttempts then BackoffMs(job) else 0;
        FailureOk(job, Tally(s.manual, id), Tally(s.backoff, id), BackoffMs(job), s.now);
        RowInv(s, idle.(backoff := Add(s.backoff, id, delay)), AfterFailure(job, BackoffMs(job), s.now), s');
      }
    }
  }

  lemma SucceededOk(job: Job, manual: nat, backoff: nat)
    requires JobOk(job, manual, backoff) && job.status.Running?
    ensures JobOk(Succeeded(job), manual, backoff)
  {
    if manual == 0 {
      BudgetGrows(job.retryDelayMs, job.attempts - 1, job.maxAttempts - 1);
    }
    hide Budget;
  }

  lemma {:induction false} RunsKeepInv(c: Limits, states: seq<State>, events: seq<Event>)
    requires IsRun(c, states, events)
    ensures Inv(Last(states))
  {
    if events == [] {
      assert Last(states) == Idle;
    } else {
      var k := |events| - 1;
      assert Next(c, states[k], events[k], states[k + 1]);
      RunsKeepInv(c, Init(states), Init(events));
      NextKeepsInv(c, states[k], events[k], states[k + 1]);
    }
  }

  /** Over every run: no more attempts than the maximum plus the manual retries; and without a manual retry the retry
      counter follows the attempts and all scheduled backoff, stale recoveries included, stays within the geometric sum. */
  lemma RetryArithmetic(c: Limits, states: seq<State>, events: seq<Event>, id: string)
    requires IsRun(c, states, events) && id in Last(states).jobs
    ensures var s := Last(states); var job := s.jobs[id];
      && job.maxAttempts >= 1 && job.attempts <= job.maxAttempts + Tally(s.manual, id)
      && (Tally(s.manual, id) == 0 ==>
            && (job.status.Queued? ==> job.retryCount == job.attempts)
            && (job.status.Running? || job.status.ScheduledRetry? ==> job.retryCount == job.attempts - 1)
            && Tally(s.backoff, id) <= job.retryDelayMs * (Pow2(job.maxAttempts - 1) - 1))
  {
    RunsKeepInv(c, states, events);
    var s, job := Last(states), Last(states).jobs[id];
    assert JobOk(job, Tally(s.manual, id), Tally(s.backoff, id));
    if Tally(s.manual, id) == 0 {
      if job.status.Running? {
        BudgetGrows(job.retryDelayMs, job.attempts - 1, job.maxAttempts - 1);
      } else if job.attempts < job.maxAttempts {
        BudgetGrows(job.retryDelayMs, job.attempts, job.maxAttempts - 1);
      }
    }
  }

  /** Over every run without a manual retry: when the running job fails, it waits its delay doubled once per earlier attempt, or
      has failed for good with its last attempt. */
  lemma RetriesBackOffExponentially(c: Limits, states: seq<State>, events: seq<Event>, s': State)
    requires IsRun(c, states, events) && Next(c, Last(states), Finish(false), s')
    requires Last(states).current.value in Last(states).jobs && Tally(Last(states).manual, Last(states).current.value) == 0
    ensures var s := Last(states); var id := s.current.value; var job := s.jobs[id];
      if job.attempts < job.maxAttempts
      then id in s'.jobs && s'.jobs[id].status.ScheduledRetry? && s'.jobs[id].attempts == job.attempts >= 1
           && s'.jobs[id].nextRetryAt == Some(s.now + Doubled(job.retryDelayMs, job.attempts - 1))
      else id in s'.jobs ==> s'.jobs[id].status.Failed?
  {
    RunsKeepInv(c, states, events);
    var s := Last(states);
    var job := s.jobs[s.current.value];
    assert JobOk(job, Tally(s.manual, job.id), Tally(s.backoff, job.id));
    PowerDoubles(job.retryDelayMs, job.retryCount);
    OneWritten(s.jobs, AfterFailure(job, BackoffMs(job), s.now), s'.jobs);
    hide Stored, Pow2, Doubled;
  }

  /** A stale job that is recovered waits its plain delay, whatever attempt it was. */
  lemma StaleJobsWaitOnce(c: Limits, states: seq<State>, events: seq<Event>, id: string, s': State)
    requires IsRun(c, states, events) && Next(c, Last(states), RecoverStale(id), s')
    ensures var s := Last(states); var job := s.jobs[id];
      if job.attempts < job.maxAttempts
      then id in s'.jobs && s'.jobs[id].status.ScheduledRetry? && s'.jobs[id].nextRetryAt == Some(s.now + job.retryDelayMs)
      else id in s'.jobs ==> s'.jobs[id].status.Failed?
  {
    RunsKeepInv(c, states, events);
    var s := Last(states);
    var job := s.jobs[id];
    assert JobOk(job, Tally(s.manual, id), Tally(s.backoff, id));
    OneWritten(s.jobs, AfterFailure(job, StaleBackoffMs(job), s.now), s'.jobs);
    hide Stored;
  }

  // ----- Capacity -----

  lemma LiveWith(jobs: Jobs, job: Job)
    ensures Live(jobs[job.id := job]) == if Terminal(job.status) then Live(jobs) - {job.id} else Live(jobs) + {job.id}
  {
  }

  /** Storing a row changes the number of live jobs by what that row gains or loses. */
  lemma LiveAfter(jobs: Jobs, job: Job, after: Jobs)
    requires Stored(jobs, job, after)
    ensures var was, lives := job.id in jobs && !Terminal(jobs[job.id].status), !Terminal(job.status);
      |Live(after)| == |Live(jobs)| + (if lives && !was then 1 else 0) - (if was && !lives then 1 else 0)
  {
    LiveWith(jobs, job);
    StoredLive(jobs, job, after);
    assert job.id in Live(jobs) <==> job.id in jobs && !Terminal(jobs[job.id].status);
    hide Stored, Live;
  }

  lemma StoredLive(jobs: Jobs, job: Job, after: Jobs)
    requires Stored(jobs, job, after)
    ensures Live(after) == Live(jobs[job.id := job])
  {
    hide Live, Terminals;
  }

  lemma LiveIsPendingAndRunning(jobs: Jobs)
    ensures |Live(jobs)| == |Pending(jobs)| + |InRun(jobs)|
  {
    assert Live(jobs) == Pending(jobs) + InRun(jobs) && Pending(jobs) !! InRun(jobs);
  }

  /** The moves that bring a job to life. */
  predicate Revives(c: Limits, s: State, e: Event) {
    match e
    case Enqueue(job) => !Saturated(s.jobs, c.maxPending, c.maxRunning)
    case ManualRetry(id) => id in s.jobs && s.jobs[id].status.Failed?
    case Requeue => s.batch != [] && s.batch[0].id in s.jobs && s.jobs[s.batch[0].id].status.Canceled?
    case _ => false
  }

  /** The number of live jobs rises exactly by an admitted job, a manual retry of a failed one, or a batch that requeues a
      job cancelled after the batch was read; then it rises by one. Every other move keeps or lowers it. */
  lemma LiveRisesExactly(c: Limits, s: State, e: Event, s': State)
    requires Inv(s) && Next(c, s, e, s')
    ensures |Live(s'.jobs)| > |Live(s.jobs)| <==> Revives(c, s, e)
    ensures |Live(s'.jobs)| <= |Live(s.jobs)| + 1
    ensures s'.revived == s.revived + if Revives(c, s, e) && !e.Enqueue? then 1 else 0
  {
    hide Stored, Live, JobOk, Saturated;
    match e
    case Enqueue(job) => if !Saturated(s.jobs, c.maxPending, c.maxRunning) { LiveAfter(s.jobs, job, s'.jobs); }
    case Cancel(id) => LiveAfter(s.jobs, if Cancellable(s.jobs[id]) then CancelledJob(s.jobs[id]) else s.jobs[id], s'.jobs);
    case ManualRetry(id) => LiveAfter(s.jobs, if Retryable(s.jobs[id]) then Requeued(s.jobs[id]) else s.jobs[id], s'.jobs);
    case RecoverStale(id) => LiveAfter(s.jobs, AfterFailure(s.jobs[id], StaleBackoffMs(s.jobs[id]), s.now), s'.jobs);
    case Requeue => RequeueLive(c, s, s');
    case StartHead(admitted) => StartLive(c, s, admitted, s');
    case Finish(succeeded) => FinishLive(c, s, succeeded, s');
    case _ =>
  }

  lemma RequeueLive(c: Limits, s: State, s': State)
    requires Inv(s) && Next(c, s, Requeue, s')
    ensures |Live(s'.jobs)| == |Live(s.jobs)| + if Revives(c, s, Requeue) then 1 else 0
    ensures s'.revived == s.revived + if Revives(c, s, Requeue) then 1 else 0
  {
    assert TicketOk(s, s.batch[0]);
    if s.batch[0].id in s.jobs {
      LiveAfter(s.jobs, Requeued(s.jobs[s.batch[0].id]), s'.jobs);
    }
    hide Stored, Live, JobOk;
  }

  lemma StartLive(c: Limits, s: State, admitted: bool, s': State)
    requires Inv(s) && Next(c, s, StartHead(admitted), s')
    ensures |Live(s'.jobs)| <= |Live(s.jobs)| && s'.revived == s.revived
  {
    assert TicketOk(s, s.batch[0]);
    var id := s.batch[0].id;
    if id in s.jobs && !s.jobs[id].status.Canceled? {
      LiveAfter(s.jobs, if admitted then Started(s.jobs[id], s.now) else Denied(s.jobs[id], s.now), s'.jobs);
    }
    hide Stored, Live, JobOk;
  }

  lemma FinishLive(c: Limits, s: State, succeeded: bool, s': State)
    requires Inv(s) && Next(c, s, Finish(succeeded), s')
    ensures |Live(s'.jobs)| <= |Live(s.jobs)| && s'.revived == s.revived
  {
    var id := s.current.value;
    if id in s.jobs {
      LiveAfter(s.jobs, if succeeded then Succeeded(s.jobs[id]) else AfterFailure(s.jobs[id], BackoffMs(s.jobs[id]), s.now), s'.jobs);
    }
    hide Stored, Live, JobOk;
  }

  /** Queued, waiting and running jobs together never exceed the two limits less one, plus the jobs that were revived. */
  lemma {:induction false} LiveJobsAreBounded(c: Limits, states: seq<State>, events: seq<Event>)
    requires IsRun(c, states, events) && c.maxPending >= 1 && c.maxRunning >= 1
    ensures var s := Last(states);
      |Pending(s.jobs)| + |InRun(s.jobs)| <= c.maxPending + c.maxRunning - 1 + s.revived
  {
    LiveIsPendingAndRunning(Last(states).jobs);
    if events == [] {
      assert Live(Idle.jobs) == {};
    } else {
      var k := |events| - 1;
      assert Next(c, states[k], events[k], states[k + 1]);
      LiveJobsAreBounded(c, Init(states), Init(events));
      RunsKeepInv(c, Init(states), Init(events));
      LiveIsPendingAndRunning(states[k].jobs);
      LiveRisesExactly(c, states[k], events[k], states[k + 1]);
    }
  }

  // ----- The limit can be passed without a manual retry -----

  lemma FewTerminalsStay(jobs: Jobs, job: Job)
    requires |Terminals(jobs[job.id := job])| <= TERMINAL_JOB_RETENTION
    ensures Stored(jobs, job, jobs[job.id := job])
  {
  }

  const ONE_OF_EACH := Limits(1, 1)

  const FIRST_JOB := NewJob("a", 0, 3, 5000, 60000)

  lemma FirstJobEnters()
    ensures Next(ONE_OF_EACH, Idle, Enqueue(FIRST_JOB), Idle.(jobs := map["a" := FIRST_JOB]))
  {
    assert Pending(map[]) == {} && InRun(map[]) == {};
    assert Terminals(Idle.jobs["a" := FIRST_JOB]) == {};
    FewTerminalsStay(Idle.jobs, FIRST_JOB);
    assert Idle.jobs["a" := FIRST_JOB] == map["a" := FIRST_JOB];
  }

  lemma FirstJobLeavesBatch()
    ensures Next(ONE_OF_EACH, Idle.(jobs := map["a" := FIRST_JOB], batch := [Ticket("a", false)]), StartHead(true),
                 Idle.(jobs := map["a" := Started(FIRST_JOB, 0)], current := Some("a")))
  {
    var jobs, running := map["a" := FIRST_JOB], Started(FIRST_JOB, 0);
    assert Terminals(jobs["a" := running]) == {};
    FewTerminalsStay(jobs, running);
    assert jobs["a" := running] == map["a" := running];
  }

  /** A job is admitted, read into a batch and started. */
  lemma FirstJobStarts() returns (states: seq<State>, events: seq<Event>)
    ensures IsRun(ONE_OF_EACH, states, events) && forall e :: e in events ==> !e.ManualRetry?
    ensures Last(states) == Idle.(jobs := map["a" := Started(FIRST_JOB, 0)], current := Some("a"))
  {
    var s1 := Idle.(jobs := map["a" := FIRST_JOB]);
    var s2 := s1.(batch := [Ticket("a", false)]);
    var s3 := Idle.(jobs := map["a" := Started(FIRST_JOB, 0)], current := Some("a"));
    FirstJobEnters();
    assert Next(ONE_OF_EACH, s1, ReadBatch([Ticket("a", false)]), s2);
    FirstJobLeavesBatch();
    states, events := [Idle, s1, s2, s3], [Enqueue(FIRST_JOB), ReadBatch([Ticket("a", false)]), StartHead(true)];
    hide Next;
  }

  /** It fails for the first time. */
  lemma FirstJobFails() returns (states: seq<State>, events: seq<Event>)
    ensures IsRun(ONE_OF_EACH, states, events) && forall e :: e in events ==> !e.ManualRetry?
    ensures var s := Last(states);
      && s.jobs.Keys == {"a"} && s.jobs["a"].id == "a" && s.jobs["a"].status.ScheduledRetry?
      && s.jobs["a"].nextRetryAt.Some? && s.batch == [] && s.current.None? && s.manual == map[] && s.backoff.Keys == {"a"}
  {
    var earlier, done := FirstJobStarts();
    var s3 := Last(earlier);
    var running := s3.jobs["a"];
    var failed := AfterFailure(running, BackoffMs(running), 0);
    var s4 := s3.(jobs := map["a" := failed], current := None, backoff := Add(map[], "a", BackoffMs(running)));
    assert Terminals(s3.jobs["a" := failed]) == {};
    FewTerminalsStay(s3.jobs, failed);
    assert s3.jobs["a" := failed] == s4.jobs;
    assert Next(ONE_OF_EACH, s3, Finish(false), s4);
    states, events := earlier + [s4], done + [Finish(false)];
  }

  lemma OneMore(c: Limits, states: seq<State>, events: seq<Event>, e: Event, s: State)
    requires IsRun(c, states, events) && Next(c, Last(states), e, s)
    ensures IsRun(c, states + [s], events + [e])
  {
  }

  lemma ThenItIsCancelled() returns (states: seq<State>, events: seq<Event>)
    ensures IsRun(ONE_OF_EACH, states, events) && forall e :: e in events ==> !e.ManualRetry?
    ensures var s := Last(states);
      && s.jobs.Keys == {"a"} && s.jobs["a"].id == "a" && s.jobs["a"].status.Canceled?
      && s.batch == [Ticket("a", true)] && s.current.None? && s.manual == map[] && s.backoff.Keys == {"a"}
  {
    states, events := FirstJobFails();
    var s4 := Last(states);
    var a := s4.jobs["a"];
    var s5 := s4.(now := s4.now + a.nextRetryAt.value);
    OneMore(ONE_OF_EACH, states, events, Tick(a.nextRetryAt.value), s5);
    states, events := states + [s5], events + [Tick(a.nextRetryAt.value)];
    var s6 := s5.(batch := [Ticket("a", true)]);
    OneMore(ONE_OF_EACH, states, events, ReadBatch([Ticket("a", true)]), s6);
    states, events := states + [s6], events + [ReadBatch([Ticket("a", true)])];
    var s7 := s6.(jobs := s6.jobs["a" := CancelledJob(a)]);
    assert Terminals(s7.jobs) == {"a"};
    FewTerminalsStay(s6.jobs, CancelledJob(a));
    OneMore(ONE_OF_EACH, states, events, Cancel("a"), s7);
    states, events := states + [s7], events + [Cancel("a")];
  }

  lemma NewJobTakesItsPlace(s7: State, b: Job, s8: State)
    requires s7.jobs.Keys == {"a"} && s7.jobs["a"].status.Canceled? && s7.batch == [Ticket("a", true)]
    requires s7.current.None? && s7.manual == map[] && s7.backoff.Keys == {"a"}
    requires b == NewJob("b", 1, 3, 5000, 60000) && s8 == s7.(jobs := s7.jobs["b" := b])
    ensures Next(ONE_OF_EACH, s7, Enqueue(b), s8)
  {
    assert Pending(s7.jobs) == {} && InRun(s7.jobs) == {};
    assert Terminals(s8.jobs) == {"a"};
    FewTerminalsStay(s7.jobs, b);
  }

  lemma CancelledJobReturns(s8: State, s9: State)
    requires s8.jobs.Keys == {"a", "b"} && s8.jobs["a"].id == "a" && s8.jobs["a"].status.Canceled? && s8.jobs["b"].status.Queued?
    requires s8.batch == [Ticket("a", true)] && s8.current.None?
    requires s9 == s8.(batch := [Ticket("a", false)], revived := s8.revived + 1, jobs := s8.jobs["a" := Requeued(s8.jobs["a"])])
    ensures Next(ONE_OF_EACH, s8, Requeue, s9) && |Pending(s9.jobs)| == 2
  {
    assert Terminals(s9.jobs) == {};
    FewTerminalsStay(s8.jobs, Requeued(s8.jobs["a"]));
    assert [Ticket("a", false)] + s8.batch[1..] == [Ticket("a", false)];
    assert Pending(s9.jobs) == {"a", "b"};
  }

  /** One slot of each kind and no manual retry: a job waiting for its retry is cancelled after the batch was read, its place
      is given to a new job, and the batch then brings the cancelled job back. Two jobs live where one was allowed. */
  lemma StaleBatchPassesTheLimit() returns (states: seq<State>, events: seq<Event>)
    ensures IsRun(ONE_OF_EACH, states, events) && forall e :: e in events ==> !e.ManualRetry?
    ensures |Pending(Last(states).jobs)| + |InRun(Last(states).jobs)| > ONE_OF_EACH.maxPending + ONE_OF_EACH.maxRunning - 1
  {
    hide Next, Pending, InRun;
    states, events := ThenItIsCancelled();
    var s7 := Last(states);
    var b := NewJob("b", 1, 3, 5000, 60000);
    var s8 := s7.(jobs := s7.jobs["b" := b]);
    NewJobTakesItsPlace(s7, b, s8);
    OneMore(ONE_OF_EACH, states, events, Enqueue(b), s8);
    states, events := states + [s8], events + [Enqueue(b)];
    var s9 := s8.(batch := [Ticket("a", false)], revived := s8.revived + 1, jobs := s8.jobs["a" := Requeued(s8.jobs["a"])]);
    CancelledJobReturns(s8, s9);
    OneMore(ONE_OF_EACH, states, events, Requeue, s9);
    states, events := states + [s9], events + [Requeue];
  }

  // ----- Pruning over a run -----

  /** The moves that may end a job. */
  predicate Ends(s: State, e: Event, id: string) {
    match e
    case Cancel(x) => x == id
    case RecoverStale(x) => x == id
    case StartHead(admitted) => !admitted && s.batch != [] && s.batch[0].id == id
    case Finish(_) => s.current == Some(id)
    case _ => false
  }

  /** Pruning never takes a job that is not finished: only a move that ends it can make it disappear. */
  lemma LiveJobsStay(c: Limits, s: State, e: Event, s': State, id: string)
    requires Inv(s) && Next(c, s, e, s') && id in Live(s.jobs) && !Ends(s, e, id)
    ensures id in Live(s'.jobs)
  {
    hide JobOk, Saturated;
    match e
    case Enqueue(job) => if !Saturated(s.jobs, c.maxPending, c.maxRunning) { OthersStay(s.jobs, job, s'.jobs, id); }
    case Cancel(x) => OthersStay(s.jobs, if Cancellable(s.jobs[x]) then CancelledJob(s.jobs[x]) else s.jobs[x], s'.jobs, id);
    case ManualRetry(x) => OthersStay(s.jobs, if Retryable(s.jobs[x]) then Requeued(s.jobs[x]) else s.jobs[x], s'.jobs, id);
    case RecoverStale(x) => OthersStay(s.jobs, AfterFailure(s.jobs[x], StaleBackoffMs(s.jobs[x]), s.now), s'.jobs, id);
    case Requeue =>
      if s.batch[0].id in s.jobs {
        OthersStay(s.jobs, Requeued(s.jobs[s.batch[0].id]), s'.jobs, id);
      }
    case StartHead(admitted) =>
      var x := s.batch[0].id;
      if x in s.jobs && !s.jobs[x].status.Canceled? {
        OthersStay(s.jobs, if admitted then Started(s.jobs[x], s.now) else Denied(s.jobs[x], s.now), s'.jobs, id);
      }
    case Finish(succeeded) =>
      var x := s.current.value;
      if x in s.jobs {
        OthersStay(s.jobs, if succeeded then Succeeded(s.jobs[x]) else AfterFailure(s.jobs[x], BackoffMs(s.jobs[x]), s.now), s'.jobs, id);
      }
    case _ =>
  }

  lemma OthersStay(jobs: Jobs, job: Job, after: Jobs, id: string)
    requires Stored(jobs, job, after) && id in Live(jobs) && (id == job.id ==> !Terminal(job.status))
    ensures id in Live(after)
  {
    assert id in Live(jobs[job.id := job]);
  }

  /** Over every run at most the retention limit of finished jobs is kept. */
  lemma {:induction false} RetentionHolds(c: Limits, states: seq<State>, events: seq<Event>)
    requires IsRun(c, states, events)
    ensures |Terminals(Last(states).jobs)| <= TERMINAL_JOB_RETENTION
  {
    if events == [] {
      assert Terminals(Idle.jobs) == {};
    } else {
      var k := |events| - 1;
      assert Next(c, states[k], events[k], states[k + 1]);
      RetentionHolds(c, Init(states), Init(events));
      NextRetains(c, states[k], events[k], states[k + 1]);
    }
  }

  lemma NextRetains(c: Limits, s: State, e: Event, s': State)
    requires Next(c, s, e, s') && |Terminals(s.jobs)| <= TERMINAL_JOB_RETENTION
    ensures |Terminals(s'.jobs)| <= TERMINAL_JOB_RETENTION
  {
    hide Live, Terminals, Saturated;
  }
}
