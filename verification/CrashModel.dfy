/** One execution of one plan over whole runs, with any number of living processes: each may die between any two transactions,
    its own or those of a recovery, and launches, recoveries, cancellations and operator retries happen while others live. */
module CrashModel {
  import opened Common
  import opened ExecutionTables
  import opened Normalisers
  import opened StateStore
  import opened Reconciliation
  import opened Recovery
  import opened CrashRecovery
  import Rows = SnapshotStore

  /** What a process is about to do; `Stuck` after a failed attempt of the step. */
  datatype Process =
    | Dead
    | At(step: nat)
    | InFlight(step: nat, number: nat)
    | Stuck(step: nat)
    | Closing(outcome: CheckpointStatus)

  /** The tables, the statuses of the execution's step rows in plan order, and every process that was ever started. */
  datatype World = World(d: Durable, rows: seq<Rows.RowStatus>, ps: seq<Process>)

  /** A transaction of a recovery or a launch after which the calling process dies. */
  datatype Part = Sweep | Mark | TakeLock(worker: Id) | CancelRunning(evidence: StepEvidence) | WriteStatus

  /** What a process does. A transaction that another check refuses changes nothing, so it is an act not done. */
  datatype Act =
    | Begin(worker: Id, effect: SideEffect)
    | End(status: AttemptStatus, worker: Id)
    | Pause(row: Rows.RowStatus, worker: Id)
    | Close(worker: Id)
    | GiveUp
    | Heartbeat(worker: Id)
    | Crash
    | Stop(worker: Id)

  datatype Move =
    | LaunchMove(worker: Id, gates: Gates)
    | RecoverMove(worker: Id, gates: Gates)
    | CutShortMove(part: Part)
    | RetryMove(step: nat)
    | ResumeMove(step: nat, worker: Id)
    | CancelRequestMove
    | SnapshotMove(rows: seq<Rows.RowStatus>)
    | TickMove(ms: nat)
    | ProcessMove(p: nat, act: Act)

  // ----- What a process does -----

  datatype Turn = Turn(d: Durable, rows: seq<Rows.RowStatus>, next: Process)

  /** The guard of the begin and end transactions: the step's row is not settled and may take its next status. */
  predicate Admits(row: Rows.RowStatus, next: Rows.RowStatus) {
    && !row.Completed? && !row.Failed? && !row.Cancelled? && row != Rows.Other("deferred")
    && Rows.IsValidTransition(row, next)
  }

  /** One transaction: the checkpoint and the row say running and the attempt exists, or nothing of it. */
  function BeginTurn(s: Setup, d: Durable, rows: seq<Rows.RowStatus>, i: nat, worker: Id, effect: SideEffect): Turn
    requires i < |s.plan.steps| == |rows|
  {
    var before := BeforeStep(d, s.plan.id, i);
    var made := CreateAttempt(before.durable.tables, s.plan.id, s.execution, s.plan.steps[i].id, effect, None, worker);
    if !Admits(rows[i], Rows.Running) || before.result.Err? || made.result.Err? then Turn(d, rows, At(i))
    else Turn(before.durable.(tables := made.tables), rows[i := Rows.Running], InFlight(i, made.result.value.number))
  }

  function EndedRow(status: AttemptStatus): Rows.RowStatus {
    match status
    case Completed => Rows.Completed
    case Failed => Rows.Failed
    case _ => Rows.PausedForReview
  }

  /** One transaction: the attempt and the row end and the checkpoint moves on, fails, or waits for a review with the lock
      given up. */
  function EndTurn(s: Setup, d: Durable, rows: seq<Rows.RowStatus>, i: nat, n: nat, status: AttemptStatus, worker: Id): Turn
    requires i < |s.plan.steps| == |rows|
  {
    var ended := FinalizeAttempt(d.tables, s.plan.id, s.execution, s.plan.steps[i].id, n, status);
    var d' := d.(tables := ended.tables);
    var rows' := rows[i := EndedRow(status)];
    if !Admits(rows[i], EndedRow(status)) || ended.result.Err? || s.plan.id !in d.checkpoints then Turn(d, rows, InFlight(i, n))
    else
      match status
      case Completed =>
        Turn(AfterStep(d', s.plan.id, i, |s.plan.steps|).durable, rows',
             if i + 1 < |s.plan.steps| then At(i + 1) else Closing(CheckpointStatus.Completed))
      case Failed => Turn(FailStep(d', s.plan.id, i).durable, rows', Stuck(i))
      case _ => Turn(ReleaseFor(AwaitReview(d', s.plan.id, i).durable, s.plan.id, s.execution, worker), rows', Dead)
  }

  /** A pause outside an attempt writes the status its run has for the step, which is not that of a completed one. */
  function PauseTurn(s: Setup, d: Durable, rows: seq<Rows.RowStatus>, i: nat, row: Rows.RowStatus, worker: Id, p: Process): Turn
    requires i < |rows|
  {
    if row.Completed? || !Rows.IsValidTransition(rows[i], row) || s.plan.id !in d.checkpoints then Turn(d, rows, p)
    else Turn(ReleaseFor(AwaitReview(d, s.plan.id, i).durable, s.plan.id, s.execution, worker), rows[i := row], Dead)
  }

  function Finalised(outcome: CheckpointStatus): Transition {
    Transition(Some(outcome), KEEP, Some("execution.finalized"), None, true, true)
  }

  /** `finalizeExecution`: the final status, the event and the release, or nothing. */
  function CloseTurn(s: Setup, d: Durable, rows: seq<Rows.RowStatus>, outcome: CheckpointStatus, worker: Id): Turn {
    Turn(FinalizeTransition(d, s.plan.id, s.execution, worker, Finalised(outcome)).durable, rows, Dead)
  }

  predicate Ending(status: AttemptStatus) {
    status in {AttemptStatus.Completed, AttemptStatus.Failed, AttemptStatus.Cancelled}
  }

  predicate InPlan(s: Setup, rows: seq<Rows.RowStatus>, i: nat) {
    i < |s.plan.steps| == |rows|
  }

  function TurnOf(s: Setup, d: Durable, rows: seq<Rows.RowStatus>, p: Process, act: Act): Turn {
    match (act, p)
    case (Begin(worker, effect), At(i)) => if InPlan(s, rows, i) then BeginTurn(s, d, rows, i, worker, effect) else Turn(d, rows, p)
    case (End(status, worker), InFlight(i, n)) =>
      if InPlan(s, rows, i) && Ending(status) then EndTurn(s, d, rows, i, n, status, worker) else Turn(d, rows, p)
    case (Pause(row, worker), At(i)) => if InPlan(s, rows, i) then PauseTurn(s, d, rows, i, row, worker, p) else Turn(d, rows, p)
    case (Pause(row, worker), Stuck(i)) => if InPlan(s, rows, i) then PauseTurn(s, d, rows, i, row, worker, p) else Turn(d, rows, p)
    case (Close(worker), Stuck(_)) => CloseTurn(s, d, rows, CheckpointStatus.Failed, worker)
    case (Close(worker), Closing(outcome)) => CloseTurn(s, d, rows, outcome, worker)
    case (GiveUp, At(_)) => Turn(d, rows, Closing(CheckpointStatus.Failed))
    case (GiveUp, InFlight(_, _)) => Turn(d, rows, Closing(CheckpointStatus.Failed))
    case (Heartbeat(worker), InFlight(i, n)) =>
      if InPlan(s, rows, i) then
        Turn(d.(tables := HeartbeatAttempt(d.tables, s.plan.id, s.execution, s.plan.steps[i].id, n, worker).tables), rows, p)
      else Turn(d, rows, p)
    case (Crash, _) => Turn(d, rows, Dead)
    case (Stop(worker), _) => if p.Dead? then Turn(d, rows, p) else Turn(ReleaseFor(d, s.plan.id, s.execution, worker), rows, Dead)
    case _ => Turn(d, rows, p)
  }

  // ----- The moves -----

  /** What a recovery has done when it dies after one of its transactions. */
  function CutShort(s: Setup, d: Durable, part: Part): Durable {
    match part
    case Sweep => Expire(d, s.plan.id)
    case Mark => MarkCorrupted(d, s.plan.id)
    case TakeLock(worker) => d.(tables := AcquireOrReuse(d.tables, s.plan.id, s.execution, worker).tables)
    case CancelRunning(evidence) => AttemptCancelled(s, d, evidence)
    case WriteStatus => RecoverState(d, StateOf(s.plan)).durable
  }

  /** A reconciliation under the lock that cancels the attempt of the interrupted step, and no more. */
  function AttemptCancelled(s: Setup, d: Durable, evidence: StepEvidence): Durable {
    if !HeldBy(d.tables, s.plan.id, s.execution) || s.plan.id !in d.checkpoints || !d.checkpoints[s.plan.id].status.Running? then d
    else
      match Diagnose(d.tables, ReconOf(s.plan), s.execution, d.checkpoints[s.plan.id], evidence)
      case CancelAttempt(a) =>
        d.(tables := FinalizeAttempt(d.tables, s.plan.id, s.execution, a.stepId, a.number, AttemptStatus.Cancelled).tables)
      case _ => d
  }

  /** The checkpoint an operator's `retry_step` leaves. */
  function Retried(s: Setup, d: Durable, step: nat): Durable {
    if s.plan.id !in d.checkpoints then d
    else
      var c := d.checkpoints[s.plan.id];
      Write(d, s.plan.id,
        c.(status := CheckpointStatus.Paused, cancellationRequested := false, currentStep := step,
           lastCompleted := if c.lastCompleted < step - 1 then c.lastCompleted else step - 1,
           updatedAt := d.tables.now)).durable
  }

  /** The rows it leaves: the step and whatever after it is not completed are pending again. */
  function RetriedRows(rows: seq<Rows.RowStatus>, step: nat): (r: seq<Rows.RowStatus>)
    ensures |r| == |rows|
  {
    seq(|rows|, k requires 0 <= k < |rows| => if k == step || (k > step && !rows[k].Completed?) then Rows.Pending else rows[k])
  }

  /** An operator retries only what waits for one, and not a step that is already completed. */
  predicate RetryAllowed(s: Setup, d: Durable, step: nat) {
    && s.plan.id in d.checkpoints && step < |s.plan.steps|
    && (NeedsOperator(d.checkpoints[s.plan.id].status) || d.checkpoints[s.plan.id].status.Failed?)
    && !StepDone(s, d.tables, step)
  }

  /** A snapshot of the whole run moves every row as the transition table allows, and completes none by itself. */
  predicate SnapshotAllowed(rows: seq<Rows.RowStatus>, rows': seq<Rows.RowStatus>) {
    |rows'| == |rows| && forall k :: 0 <= k < |rows| ==>
      Rows.IsValidTransition(rows[k], rows'[k]) && (rows'[k].Completed? ==> rows[k].Completed?)
  }

  /** Where the loop finds something to do. */
  function FirstOpen(rows: seq<Rows.RowStatus>): (i: nat)
    ensures i <= |rows| && (i < |rows| ==> !rows[i].Completed?) && forall k :: 0 <= k < i ==> rows[k].Completed?
  {
    if rows == [] || !rows[0].Completed? then 0 else FirstOpen(rows[1..]) + 1
  }

  /** `resumeExecution` once an operator has approved the step of a paused run: it takes the lock, without a look at the
      checkpoint, and the loop starts at the first step that is not completed. */
  function Resumed(s: Setup, w: World, step: nat, worker: Id): World {
    var taken := AcquireOrReuse(w.d.tables, s.plan.id, s.execution, worker);
    if s.plan.id !in w.d.checkpoints || step >= |w.rows| || !w.rows[step].PausedForReview? then w
    else if taken.result.Err? then w.(d := w.d.(tables := taken.tables))
    else World(w.d.(tables := taken.tables), w.rows[step := Rows.Pending], w.ps + [At(FirstOpen(w.rows))])
  }

  /** A new process, where the call comes to start the loop. */
  function Started(w: World, entry: Entry): World {
    World(entry.durable, w.rows, if entry.startAt.Some? && entry.startAt.value >= 0 then w.ps + [At(entry.startAt.value)] else w.ps)
  }

  ghost function Do(s: Setup, w: World, m: Move): World {
    match m
    case LaunchMove(worker, gates) => Started(w, Launch(w.d, s.plan, s.execution, worker, gates))
    case RecoverMove(worker, gates) => Started(w, Recover(w.d, s.plan, s.execution, worker, gates))
    case CutShortMove(part) => w.(d := CutShort(s, w.d, part))
    case RetryMove(step) => if RetryAllowed(s, w.d, step) then w.(d := Retried(s, w.d, step), rows := RetriedRows(w.rows, step)) else w
    case ResumeMove(step, worker) => Resumed(s, w, step, worker)
    case CancelRequestMove => w.(d := RequestCancellation(w.d, s.plan.id).durable)
    case SnapshotMove(rows) => if SnapshotAllowed(w.rows, rows) then w.(rows := rows) else w
    case TickMove(ms) => w.(d := w.d.(tables := w.d.tables.(now := w.d.tables.now + ms)))
    case ProcessMove(p, act) =>
      if p < |w.ps| then
        var t := TurnOf(s, w.d, w.rows, w.ps[p], act);
        World(t.d, t.rows, w.ps[p := t.next])
      else w
  }

  ghost function DoAll(s: Setup, w: World, moves: seq<Move>): World {
    if moves == [] then w else Do(s, DoAll(s, w, Init(moves)), Last(moves))
  }

  function Beginning(s: Setup): World {
    World(Durable(Empty, map[]), seq(|s.plan.steps|, _ => Rows.Pending), [])
  }
}
