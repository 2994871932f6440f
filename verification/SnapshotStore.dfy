/** The snapshot half of services/executionStateStore.js: `persistExecutionSnapshot` and its transition table. */
module SnapshotStore {
  import opened Common
  import ExecutionTables
  import Normalisers

  datatype RowStatus =
    | Pending | Running | Paused | PausedForReview | AwaitingReview | PauseForOperatorRecovery
    | Completed | Cancelled | Failed | ExecutionAbandoned | Corrupted
    | Other(name: string)

  /** A row of `execution_steps` or `execution_stages`; stages leave the step columns empty.
      `details` stands for the columns that every snapshot simply overwrites. */
  datatype Row = Row(
    id: string, sequence: int, status: RowStatus, startedAt: Option<string>, stageId: Option<string>,
    originalText: Option<string>, originalInput: Option<string>, idempotencyKey: Option<string>, details: string)

  /** A row of `executions`, lease and counter columns included. */
  datatype ExecutionRow = ExecutionRow(
    planId: Option<string>, status: RowStatus, requiresReview: bool, createdAt: string, startedAt: Option<string>,
    counters: ExecutionTables.Execution, details: string)

  datatype Snapshots = Snapshots(
    executions: map<string, ExecutionRow>, stages: map<string, map<string, Row>>, steps: map<string, map<string, Row>>)

  datatype SnapshotError = MissingRunId | InvalidTransition | SequenceTaken

  datatype Persisted = Persisted(snapshots: Snapshots, result: Result<ExecutionRow, SnapshotError>)

  // ----- What a run hands over -----

  datatype RunItem = RunItem(
    id: string, sequence: Option<int>, status: string, startedAt: Option<string>, stageId: Option<string>,
    originalText: Option<string>, originalInput: string, idempotencyKey: Option<string>, details: string)

  datatype RunState = RunState(
    id: string, planId: Option<string>, cancelled: bool, globalState: string, reviewStatus: string, createdAt: string,
    startedAt: Option<string>, counters: ExecutionTables.Execution, stages: seq<RunItem>, steps: seq<RunItem>, details: string)

  function StepStatus(name: string): RowStatus {
    var status := Normalisers.Clean(name);
    if status == "running" then Running
    else if status == "completed" then Completed
    else if status in {"failed", "timeout", "blocked"} then Failed
    else if status == "cancelled" then Cancelled
    else if status in {"paused_for_review", "awaiting_review"} then PausedForReview
    else if status in {"paused", "deferred"} then Paused
    else Pending
  }

  function StageStatus(name: string): RowStatus {
    var status := Normalisers.Clean(name);
    if status == "running" then Running
    else if status == "completed" then Completed
    else if status == "failed" then Failed
    else if status == "paused_for_review" then PausedForReview
    else Pending
  }

  function ExecutionStatus(run: RunState): RowStatus {
    if run.cancelled then Cancelled
    else if run.globalState == "running" then Running
    else if exists s :: s in run.steps && s.status in {"failed", "timeout", "blocked"} then Failed
    else if run.steps != [] && forall s :: s in run.steps ==> s.status in {"completed", "deferred"} then Completed
    else if run.reviewStatus == "pending" then PausedForReview
    else if run.globalState in {"paused", "safe_mode"} then Paused
    else Pending
  }

  function FirstStart(steps: seq<RunItem>): Option<string> {
    if steps == [] then None else if steps[0].startedAt.Some? then steps[0].startedAt else FirstStart(steps[1..])
  }

  function NormalizeExecution(run: RunState, now: string): ExecutionRow {
    var status := ExecutionStatus(run);
    var started :=
      if run.startedAt.Some? then run.startedAt
      else if FirstStart(run.steps).Some? then FirstStart(run.steps)
      else if status.Running? then Some(now)
      else None;
    ExecutionRow(run.planId, status, status.PausedForReview? || run.reviewStatus == "pending", run.createdAt, started,
                 run.counters, run.details)
  }

  function NormalizeStep(step: RunItem, index: nat): Row {
    Row(if step.id != "" then step.id else "step_" + Decimal(index + 1),
        if step.sequence.Some? then step.sequence.value else index + 1,
        StepStatus(step.status), step.startedAt, step.stageId, step.originalText, Some(step.originalInput),
        step.idempotencyKey, step.details)
  }

  function NormalizeStage(stage: RunItem, index: nat): Row {
    Row(if stage.id != "" then stage.id else "stage_" + Decimal(index + 1),
        if stage.sequence.Some? then stage.sequence.value else index + 1,
        StageStatus(stage.status), stage.startedAt, None, None, None, None, stage.details)
  }

  /** Id and number as given, or else by the place in the list. */
  predicate FromItem(row: Row, item: RunItem, name: string, index: nat) {
    && (if item.id != "" then row.id == item.id else row.id == name)
    && (if item.sequence.Some? then row.sequence == item.sequence.value else row.sequence == index + 1)
    && row.startedAt == item.startedAt && row.details == item.details
  }

  function StepRows(run: RunState): (r: seq<Row>)
    ensures |r| == |run.steps|
    ensures forall i :: 0 <= i < |r| ==> FromItem(r[i], run.steps[i], "step_" + Decimal(i + 1), i)
    ensures forall i :: 0 <= i < |r| ==>
      var item := run.steps[i];
      r[i].stageId == item.stageId && r[i].originalText == item.originalText && r[i].originalInput == Some(item.originalInput)
      && r[i].idempotencyKey == item.idempotencyKey
  {
    seq(|run.steps|, i requires 0 <= i < |run.steps| => NormalizeStep(run.steps[i], i))
  }

  function StageRows(run: RunState): (r: seq<Row>)
    ensures |r| == |run.stages|
    ensures forall i :: 0 <= i < |r| ==> FromItem(r[i], run.stages[i], "stage_" + Decimal(i + 1), i)
  {
    seq(|run.stages|, i requires 0 <= i < |run.stages| => NormalizeStage(run.stages[i], i))
  }

  // ----- The transition table -----

  predicate Settled(status: RowStatus) {
    status.Completed? || status.Cancelled? || status.Failed? || status.ExecutionAbandoned? || status.Corrupted?
  }

  const KNOWN: set<RowStatus> :=
    {Pending, Running, Paused, PausedForReview, AwaitingReview, PauseForOperatorRecovery,
     Completed, Cancelled, Failed, ExecutionAbandoned, Corrupted}

  function AllowedFrom(status: RowStatus): set<RowStatus> {
    match status
    case Pending => KNOWN
    case Running => KNOWN - {Pending}
    case Paused => KNOWN
    case PausedForReview => KNOWN
    case AwaitingReview => KNOWN - {Pending, PausedForReview}
    case PauseForOperatorRecovery => {PauseForOperatorRecovery, ExecutionAbandoned, Failed, Corrupted}
    case _ => {status}
  }

  predicate IsValidTransition(current: RowStatus, next: RowStatus) {
    (current.Other? && ExecutionTables.Blank(current.name)) || next in AllowedFrom(current)
  }

  /** Where a row may go: a settled one nowhere; one left to operator recovery only to an end without success; one that waits for
      a review never back to where it was; one that runs never back to pending; and an open one anywhere. */
  lemma RowsMoveExactly(current: RowStatus, next: RowStatus)
    requires !current.Other? && !next.Other?
    ensures IsValidTransition(current, next) <==>
      || next == current
      || (current in {Pending, Paused, PausedForReview})
      || (current == Running && next != Pending)
      || (current == AwaitingReview && next != Pending && next != PausedForReview)
      || (current == PauseForOperatorRecovery && next in {ExecutionAbandoned, Failed, Corrupted})
  {
  }

  predicate RowsMayMove(existing: map<string, Row>, incoming: seq<Row>) {
    forall i :: 0 <= i < |incoming| ==>
      incoming[i].id in existing ==> IsValidTransition(existing[incoming[i].id].status, incoming[i].status)
  }

  // ----- Upserts -----

  function Coalesce<T>(a: Option<T>, b: Option<T>): Option<T> {
    if a.Some? then a else b
  }

  /** `ON CONFLICT (execution_id, id) DO UPDATE`. */
  function Merge(old_: Row, new_: Row): Row {
    new_.(startedAt := Coalesce(new_.startedAt, old_.startedAt),
          originalText := Coalesce(old_.originalText, new_.originalText),
          originalInput := Coalesce(old_.originalInput, new_.originalInput),
          idempotencyKey := Coalesce(old_.idempotencyKey, new_.idempotencyKey))
  }

  /** `UNIQUE (execution_id, sequence)` refuses a second row with the same sequence. */
  predicate Taken(rows: map<string, Row>, r: Row) {
    exists id :: id in rows && id != r.id && rows[id].sequence == r.sequence
  }

  function Upsert(rows: map<string, Row>, r: Row): Option<map<string, Row>> {
    if Taken(rows, r) then None
    else Some(rows[r.id := if r.id in rows then Merge(rows[r.id], r) else r])
  }

  function UpsertAll(rows: map<string, Row>, incoming: seq<Row>): Option<map<string, Row>> {
    if incoming == [] then Some(rows)
    else
      match UpsertAll(rows, Init(incoming))
      case None => None
      case Some(before) => Upsert(before, Last(incoming))
  }

  function Ids(rows: seq<Row>): (r: set<string>)
    ensures forall id :: id in r <==> exists i :: 0 <= i < |rows| && rows[i].id == id
  {
    set i | 0 <= i < |rows| :: rows[i].id
  }

  function Only(rows: map<string, Row>, ids: set<string>): map<string, Row> {
    map id | id in rows && id in ids :: rows[id]
  }

  function Of(table: map<string, map<string, Row>>, execution: string): map<string, Row> {
    if execution in table then table[execution] else map[]
  }

  function MergeExecution(existing: map<string, ExecutionRow>, id: string, row: ExecutionRow): ExecutionRow {
    if id !in existing then row
    else row.(
      createdAt := existing[id].createdAt,
      startedAt := Coalesce(row.startedAt, existing[id].startedAt),
      counters := row.counters.(lastProgressAt := Coalesce(row.counters.lastProgressAt, existing[id].counters.lastProgressAt)))
  }

  /** A thrown error rolls the whole transaction back. */
  function Persist(s: Snapshots, run: RunState, now: string): Persisted {
    var row, stages, steps := NormalizeExecution(run, now), StageRows(run), StepRows(run);
    var oldStages, oldSteps := Of(s.stages, run.id), Of(s.steps, run.id);
    if run.id == "" then Persisted(s, Err(MissingRunId))
    else if run.id in s.executions && !IsValidTransition(s.executions[run.id].status, row.status) then
      Persisted(s, Err(InvalidTransition))
    else if !RowsMayMove(oldStages, stages) || !RowsMayMove(oldSteps, steps) then Persisted(s, Err(InvalidTransition))
    else
      match (UpsertAll(oldStages, stages), UpsertAll(oldSteps, steps))
      case (Some(newStages), Some(newSteps)) =>
        Persisted(
          Snapshots(s.executions[run.id := MergeExecution(s.executions, run.id, row)],
                    s.stages[run.id := Only(newStages, Ids(stages))],
                    s.steps[run.id := Only(newSteps, Ids(steps))]),
          Ok(row))
      case _ => Persisted(s, Err(SequenceTaken))
  }

  // ----- The store -----

  class Store {
    var executions: map<string, ExecutionRow>
    var stages: map<string, map<string, Row>>
    var steps: map<string, map<string, Row>>

    ghost function View(): Snapshots
      reads this
    {
      Snapshots(executions, stages, steps)
    }

    constructor ()
      ensures View() == Snapshots(map[], map[], map[])
    {
      executions, stages, steps := map[], map[], map[];
    }

    method CheckTransitions(existing: map<string, Row>, incoming: seq<Row>) returns (ok: bool)
      ensures ok == RowsMayMove(existing, incoming)
    {
      for k := 0 to |incoming|
        invariant forall i :: 0 <= i < k ==>
          incoming[i].id in existing ==> IsValidTransition(existing[incoming[i].id].status, incoming[i].status)
      {
        if incoming[k].id in existing && !IsValidTransition(existing[incoming[k].id].status, incoming[k].status) {
          return false;
        }
      }
      ok := true;
    }

    /** Row after row; the first taken sequence number ends it. */
    method UpsertRows(rows: map<string, Row>, incoming: seq<Row>) returns (r: Option<map<string, Row>>)
      ensures r == UpsertAll(rows, incoming)
    {
      var current := rows;
      for k := 0 to |incoming|
        invariant UpsertAll(rows, incoming[..k]) == Some(current)
      {
        assert Init(incoming[..k + 1]) == incoming[..k];
        var row := incoming[k];
        if Taken(current, row) {
          UpsertStaysRefused(rows, incoming, k + 1);
          return None;
        }
        current := current[row.id := if row.id in current then Merge(current[row.id], row) else row];
      }
      assert incoming[..|incoming|] == incoming;
      r := Some(current);
    }

    method PersistExecutionSnapshot(run: RunState, now: string) returns (r: Result<ExecutionRow, SnapshotError>)
      modifies this
      ensures Persisted(View(), r) == Persist(old(View()), run, now)
    {
      if run.id == "" {
        return Err(MissingRunId);
      }
      var row := NormalizeExecution(run, now);
      if run.id in executions && !IsValidTransition(executions[run.id].status, row.status) {
        return Err(InvalidTransition);
      }
      var newStages, newSteps := StageRows(run), StepRows(run);
      var stagesOk := CheckTransitions(Of(stages, run.id), newStages);
      var stepsOk := CheckTransitions(Of(steps, run.id), newSteps);
      if !stagesOk || !stepsOk {
        return Err(InvalidTransition);
      }
      var saved := executions;
      executions := executions[run.id := MergeExecution(executions, run.id, row)];
      var stored := UpsertRows(Of(stages, run.id), newStages);
      if stored.None? {
        executions := saved;
        return Err(SequenceTaken);
      }
      var savedStages := stages;
      stages := stages[run.id := Only(stored.value, Ids(newStages))];
      var storedSteps := UpsertRows(Of(steps, run.id), newSteps);
      if storedSteps.None? {
        executions, stages := saved, savedStages;
        return Err(SequenceTaken);
      }
      steps := steps[run.id := Only(storedSteps.value, Ids(newSteps))];
      r := Ok(row);
    }
  }

  lemma {:induction false} UpsertStaysRefused(rows: map<string, Row>, incoming: seq<Row>, k: nat)
    requires k <= |incoming| && UpsertAll(rows, incoming[..k]).None?
    ensures UpsertAll(rows, incoming).None?
    decreases |incoming| - k
  {
    if k < |incoming| {
      assert Init(incoming[..k + 1]) == incoming[..k];
      UpsertStaysRefused(rows, incoming, k + 1);
    } else {
      assert incoming[..k] == incoming;
    }
  }

  // ----- When upserts go through, and what they leave -----

  /** The last row of a list with a given id. */
  function LastWith(rows: seq<Row>, id: string): Option<Row> {
    if rows == [] then None else if Last(rows).id == id then Some(Last(rows)) else LastWith(Init(rows), id)
  }

  /** The sequence number an id occupies once the rows of `written` are in. */
  function Occupies(rows: map<string, Row>, written: seq<Row>, id: string): Option<int> {
    match LastWith(written, id)
    case Some(r) => Some(r.sequence)
    case None => if id in rows then Some(rows[id].sequence) else None
  }

  ghost predicate NoCollision(rows: map<string, Row>, incoming: seq<Row>) {
    forall i, id :: 0 <= i < |incoming| && id != incoming[i].id ==>
      Occupies(rows, incoming[..i], id) != Some(incoming[i].sequence)
  }

  lemma {:induction false} UpsertedOccupies(rows: map<string, Row>, incoming: seq<Row>, id: string)
    requires UpsertAll(rows, incoming).Some?
    ensures var after := UpsertAll(rows, incoming).value;
      && (id in after <==> id in rows || LastWith(incoming, id).Some?)
      && (id in after ==> Occupies(rows, incoming, id) == Some(after[id].sequence))
      && (LastWith(incoming, id).Some? ==> after[id].status == LastWith(incoming, id).value.status)
  {
    if incoming != [] {
      UpsertedOccupies(rows, Init(incoming), id);
    }
  }

  /** Upserts go through exactly when no row, at its turn, asks for a number another id occupies at that moment. */
  lemma {:induction false} UpsertSucceedsExactly(rows: map<string, Row>, incoming: seq<Row>)
    ensures UpsertAll(rows, incoming).Some? <==> NoCollision(rows, incoming)
  {
    if incoming != [] {
      var k := |incoming| - 1;
      assert incoming[..k] == Init(incoming);
      UpsertSucceedsExactly(rows, Init(incoming));
      assert forall i :: 0 <= i < k ==> Init(incoming)[..i] == incoming[..i] && Init(incoming)[i] == incoming[i];
      if UpsertAll(rows, Init(incoming)).Some? {
        var before := UpsertAll(rows, Init(incoming)).value;
        forall id | id != Last(incoming).id
          ensures Occupies(rows, incoming[..k], id) == Some(Last(incoming).sequence)
             <==> id in before && before[id].sequence == Last(incoming).sequence
        {
          UpsertedOccupies(rows, Init(incoming), id);
        }
      }
    }
  }

  predicate IdsDistinct(incoming: seq<Row>) {
    forall i, j :: 0 <= i < j < |incoming| ==> incoming[i].id != incoming[j].id
  }

  lemma {:induction false} NotYetWritten(written: seq<Row>, id: string)
    requires forall k :: 0 <= k < |written| ==> written[k].id != id
    ensures LastWith(written, id).None?
  {
    if written != [] {
      NotYetWritten(Init(written), id);
    }
  }

  /** Incoming rows that want each other's stored numbers: each wants one that another of them holds. */
  ghost predicate Rotates(rows: map<string, Row>, incoming: seq<Row>, among: set<nat>) {
    forall i :: i in among ==>
      i < |incoming| && exists j :: j in among && HoldsWanted(rows, incoming, i, j)
  }

  predicate HoldsWanted(rows: map<string, Row>, incoming: seq<Row>, i: nat, j: nat) {
    i < |incoming| && j < |incoming| && incoming[j].id != incoming[i].id
    && incoming[j].id in rows && rows[incoming[j].id].sequence == incoming[i].sequence
  }

  lemma Least(among: set<nat>) returns (m: nat)
    requires among != {}
    ensures m in among && forall k :: k in among ==> m <= k
  {
    var x :| x in among;
    var rest := among - {x};
    if rest == {} {
      assert among == {x};
      m := x;
    } else {
      var least := Least(rest);
      m := if least < x then least else x;
      assert among == rest + {x};
    }
  }

  lemma WantedIsOccupied(rows: map<string, Row>, incoming: seq<Row>, i: nat, j: nat)
    requires IdsDistinct(incoming) && HoldsWanted(rows, incoming, i, j) && i <= j
    ensures !NoCollision(rows, incoming)
  {
    NotYetWritten(incoming[..i], incoming[j].id);
    assert Occupies(rows, incoming[..i], incoming[j].id) == Some(incoming[i].sequence);
  }

  /** When no id is repeated, stored rows cannot rotate their numbers, however many they are and wherever they stand: the
      first of them to be written still finds its number occupied. */
  lemma RotationIsRefused(rows: map<string, Row>, incoming: seq<Row>, among: set<nat>)
    requires IdsDistinct(incoming) && among != {} && Rotates(rows, incoming, among)
    ensures UpsertAll(rows, incoming).None?
  {
    hide UpsertAll, NoCollision, HoldsWanted, IdsDistinct;
    var i := Least(among);
    var j: nat :| j in among && HoldsWanted(rows, incoming, i, j);
    WantedIsOccupied(rows, incoming, i, j);
    UpsertSucceedsExactly(rows, incoming);
  }

  /** In particular two of them cannot exchange theirs. */
  lemma SwapIsRefused(rows: map<string, Row>, incoming: seq<Row>, i: nat, j: nat)
    requires IdsDistinct(incoming) && i < j < |incoming| && incoming[i].id in rows && incoming[j].id in rows
    requires incoming[i].sequence == rows[incoming[j].id].sequence && incoming[j].sequence == rows[incoming[i].id].sequence
    ensures UpsertAll(rows, incoming).None?
  {
    hide UpsertAll;
    assert HoldsWanted(rows, incoming, i, j) && HoldsWanted(rows, incoming, j, i);
    assert Rotates(rows, incoming, {i, j});
    RotationIsRefused(rows, incoming, {i, j});
  }

  /** A run that lists a row twice can make the exchange, by way of a free number. */
  lemma RepeatedIdExchanges(rows: map<string, Row>, a: Row, b: Row, spare: int)
    requires UniqueSequences(rows) && a.id in rows && b.id in rows && a.id != b.id
    requires a.sequence == rows[b.id].sequence && b.sequence == rows[a.id].sequence
    requires forall id :: id in rows ==> rows[id].sequence != spare
    ensures var r := UpsertAll(rows, [a.(sequence := spare), b, a]);
      && r.Some? && a.id in r.value && b.id in r.value
      && r.value[a.id].sequence == rows[b.id].sequence && r.value[b.id].sequence == rows[a.id].sequence
  {
    var aside := a.(sequence := spare);
    assert Init([aside, b, a]) == [aside, b] && Init([aside, b]) == [aside] && Init([aside]) == [];
    assert UpsertAll(rows, [aside]) == Upsert(rows, aside);
    var one := Upsert(rows, aside).value;
    assert UpsertAll(rows, [aside, b]) == Upsert(one, b);
    assert !Taken(one, b);
    var two := Upsert(one, b).value;
    assert UpsertAll(rows, [aside, b, a]) == Upsert(two, a);
    assert !Taken(two, a);
  }

  /** Old rows keep their write-once columns, and a settled one its status if every incoming copy has that status. */
  lemma {:induction false} UpsertKeepsHistory(rows: map<string, Row>, incoming: seq<Row>, id: string)
    requires UpsertAll(rows, incoming).Some? && id in rows
    ensures var after := UpsertAll(rows, incoming).value;
      && id in after
      && (rows[id].originalInput.Some? ==> after[id].originalInput == rows[id].originalInput)
      && (rows[id].originalText.Some? ==> after[id].originalText == rows[id].originalText)
      && (rows[id].startedAt.Some? ==> after[id].startedAt.Some?)
      && (rows[id].idempotencyKey.Some? ==> after[id].idempotencyKey == rows[id].idempotencyKey)
      && ((forall i :: 0 <= i < |incoming| && incoming[i].id == id ==> incoming[i].status == rows[id].status) ==>
            after[id].status == rows[id].status)
  {
    if incoming != [] {
      UpsertKeepsHistory(rows, Init(incoming), id);
    }
  }

  ghost predicate UniqueSequences(rows: map<string, Row>) {
    forall a, b :: a in rows && b in rows && a != b ==> rows[a].sequence != rows[b].sequence
  }

  lemma {:induction false} UpsertKeepsUnique(rows: map<string, Row>, incoming: seq<Row>)
    requires UniqueSequences(rows) && UpsertAll(rows, incoming).Some?
    ensures UniqueSequences(UpsertAll(rows, incoming).value)
  {
    if incoming != [] {
      UpsertKeepsUnique(rows, Init(incoming));
    }
  }

  // ----- All or nothing -----

  ghost predicate Mirrors(stored: map<string, Row>, incoming: seq<Row>) {
    && (forall id :: id in stored <==> LastWith(incoming, id).Some?)
    && forall id :: id in stored ==>
         var r := LastWith(incoming, id).value;
         && stored[id].status == r.status && stored[id].sequence == r.sequence
         && stored[id].stageId == r.stageId && stored[id].details == r.details
         && (r.startedAt.Some? ==> stored[id].startedAt == r.startedAt)
  }

  predicate TransitionsAllowed(s: Snapshots, run: RunState) {
    && (run.id in s.executions ==> IsValidTransition(s.executions[run.id].status, ExecutionStatus(run)))
    && RowsMayMove(Of(s.stages, run.id), StageRows(run))
    && RowsMayMove(Of(s.steps, run.id), StepRows(run))
  }

  lemma {:induction false} LastWithFinds(rows: seq<Row>, id: string)
    ensures LastWith(rows, id).Some? <==> id in Ids(rows)
    ensures LastWith(rows, id).Some? ==> LastWith(rows, id).value in rows && LastWith(rows, id).value.id == id
  {
    if rows != [] {
      LastWithFinds(Init(rows), id);
      assert rows == Init(rows) + [Last(rows)];
      assert rows[|rows| - 1].id in Ids(rows);
      if id in Ids(rows) && Last(rows).id != id {
        var i :| 0 <= i < |rows| && rows[i].id == id;
        assert Init(rows)[i].id == id;
      }
      if id in Ids(Init(rows)) {
        var i :| 0 <= i < |Init(rows)| && Init(rows)[i].id == id;
        assert rows[i].id == id;
      }
    }
  }

  lemma StoredMirrors(rows: map<string, Row>, incoming: seq<Row>)
    requires UpsertAll(rows, incoming).Some?
    ensures Mirrors(Only(UpsertAll(rows, incoming).value, Ids(incoming)), incoming)
  {
    forall id
      ensures id in Only(UpsertAll(rows, incoming).value, Ids(incoming)) <==> LastWith(incoming, id).Some?
    {
      UpsertedOccupies(rows, incoming, id);
      LastWithFinds(incoming, id);
    }
    forall id | id in Only(UpsertAll(rows, incoming).value, Ids(incoming))
      ensures LastWith(incoming, id).Some?
      ensures var r := LastWith(incoming, id).value; var stored := Only(UpsertAll(rows, incoming).value, Ids(incoming));
              && stored[id].status == r.status && stored[id].sequence == r.sequence
              && stored[id].stageId == r.stageId && stored[id].details == r.details
              && (r.startedAt.Some? ==> stored[id].startedAt == r.startedAt)
    {
      UpsertedOccupies(rows, incoming, id);
      LastWithFinds(incoming, id);
    }
  }

  lemma PersistSucceedsExactly(s: Snapshots, run: RunState, now: string)
    ensures var p := Persist(s, run, now);
      && (p.result.Ok? <==>
            run.id != "" && TransitionsAllowed(s, run)
            && NoCollision(Of(s.stages, run.id), StageRows(run)) && NoCollision(Of(s.steps, run.id), StepRows(run)))
      && (p.result.Err? ==> p.snapshots == s)
  {
    hide NormalizeExecution, StageRows, StepRows, NoCollision, UpsertAll, RowsMayMove, Only, Ids, MergeExecution;
    UpsertSucceedsExactly(Of(s.stages, run.id), StageRows(run));
    UpsertSucceedsExactly(Of(s.steps, run.id), StepRows(run));
    NormalizedStatus(run, now);
  }

  lemma PersistMirrors(s: Snapshots, run: RunState, now: string)
    requires Persist(s, run, now).result.Ok?
    ensures var p := Persist(s, run, now);
      && run.id in p.snapshots.executions && p.snapshots.executions[run.id].status == ExecutionStatus(run)
      && Mirrors(Of(p.snapshots.stages, run.id), StageRows(run))
      && Mirrors(Of(p.snapshots.steps, run.id), StepRows(run))
  {
    hide NormalizeExecution, StageRows, StepRows, NoCollision, UpsertAll, RowsMayMove, Mirrors;
    NormalizedStatus(run, now);
    StoredMirrors(Of(s.stages, run.id), StageRows(run));
    StoredMirrors(Of(s.steps, run.id), StepRows(run));
  }

  lemma PersistLeavesOthers(s: Snapshots, run: RunState, now: string)
    ensures var p := Persist(s, run, now);
      forall e :: e != run.id ==>
        && (e in p.snapshots.executions <==> e in s.executions)
        && (e in s.executions ==> p.snapshots.executions[e] == s.executions[e])
        && Of(p.snapshots.stages, e) == Of(s.stages, e) && Of(p.snapshots.steps, e) == Of(s.steps, e)
  {
    hide NormalizeExecution, StageRows, StepRows, UpsertAll, RowsMayMove, Only, Ids, MergeExecution;
  }

  /** A snapshot goes in exactly when every transition is allowed and no sequence number is taken; then the stored
      rows mirror the run and no other execution is touched. Otherwise nothing changes at all. */
  lemma SnapshotIsAllOrNothing(s: Snapshots, run: RunState, now: string)
    ensures var p := Persist(s, run, now);
      && (p.result.Ok? <==>
            run.id != "" && TransitionsAllowed(s, run)
            && NoCollision(Of(s.stages, run.id), StageRows(run)) && NoCollision(Of(s.steps, run.id), StepRows(run)))
      && (p.result.Err? ==> p.snapshots == s)
      && (p.result.Ok? ==>
            && run.id in p.snapshots.executions && p.snapshots.executions[run.id].status == ExecutionStatus(run)
            && Mirrors(Of(p.snapshots.stages, run.id), StageRows(run))
            && Mirrors(Of(p.snapshots.steps, run.id), StepRows(run))
            && forall e :: e != run.id ==>
                 && (e in p.snapshots.executions <==> e in s.executions)
                 && (e in s.executions ==> p.snapshots.executions[e] == s.executions[e])
                 && Of(p.snapshots.stages, e) == Of(s.stages, e) && Of(p.snapshots.steps, e) == Of(s.steps, e))
  {
    hide Persist, NoCollision, TransitionsAllowed, Mirrors, StageRows, StepRows, ExecutionStatus, Of;
    PersistSucceedsExactly(s, run, now);
    PersistLeavesOthers(s, run, now);
    if Persist(s, run, now).result.Ok? {
      PersistMirrors(s, run, now);
    }
  }

  // ----- What the statuses come to -----

  /** The status words of the steps are in lower case without blanks around them. */
  predicate CleanWords(run: RunState) {
    forall s :: s in run.steps ==> Normalisers.Clean(s.status) == s.status
  }

  lemma ItemsAndRows(run: RunState)
    requires CleanWords(run)
    ensures forall i :: 0 <= i < |run.steps| ==>
      var word, status := run.steps[i].status, StepRows(run)[i].status;
      && (status.Failed? <==> word in {"failed", "timeout", "blocked"})
      && (status.Completed? <==> word == "completed")
      && (word == "deferred" ==> status.Paused?)
  {
    forall i | 0 <= i < |run.steps|
      ensures Normalisers.Clean(run.steps[i].status) == run.steps[i].status
    {
      assert run.steps[i] in run.steps;
    }
    hide Normalisers.Clean, CleanWords;
    assert "deferred" != "running" && "deferred" != "completed" && "deferred" !in {"failed", "timeout", "blocked"};
  }

  predicate AnyFailed(steps: seq<RunItem>) {
    exists i :: 0 <= i < |steps| && steps[i].status in {"failed", "timeout", "blocked"}
  }

  predicate AllDone(steps: seq<RunItem>) {
    steps != [] && forall i :: 0 <= i < |steps| ==> steps[i].status in {"completed", "deferred"}
  }

  lemma ExecutionStatusBySteps(run: RunState)
    ensures var status := ExecutionStatus(run); var open := !run.cancelled && run.globalState != "running";
      && (status.Cancelled? <==> run.cancelled)
      && (status.Running? <==> !run.cancelled && run.globalState == "running")
      && (status.Failed? <==> open && AnyFailed(run.steps))
      && (status.Completed? <==> open && !AnyFailed(run.steps) && AllDone(run.steps))
      && (status.PausedForReview? <==> open && !status.Failed? && !status.Completed? && run.reviewStatus == "pending")
      && (status.Paused? <==>
            open && !status.Failed? && !status.Completed? && run.reviewStatus != "pending" && run.globalState in {"paused", "safe_mode"})
  {
    assert forall i :: 0 <= i < |run.steps| ==> run.steps[i] in run.steps;
    assert AnyFailed(run.steps) <==> exists s :: s in run.steps && s.status in {"failed", "timeout", "blocked"};
    assert AllDone(run.steps) <==> run.steps != [] && forall s :: s in run.steps ==> s.status in {"completed", "deferred"};
    hide AnyFailed, AllDone;
  }

  /** The status an execution is stored with follows from those of the steps handed over: cancelled and running come first,
      then it has failed as soon as a step is stored as failed, and it is completed when each of its steps is stored as
      completed, or as paused for having been deferred; failing all this a pending review pauses it. */
  lemma ExecutionFollowsSteps(s: Snapshots, run: RunState, now: string)
    requires Persist(s, run, now).result.Ok? && CleanWords(run)
    ensures var status := Persist(s, run, now).snapshots.executions[run.id].status; var rows := StepRows(run);
            var open := !run.cancelled && run.globalState != "running";
      && (status.Cancelled? <==> run.cancelled)
      && (status.Running? <==> !run.cancelled && run.globalState == "running")
      && (status.Failed? <==> open && exists i :: 0 <= i < |rows| && rows[i].status.Failed?)
      && (status.Completed? <==>
            open && rows != []
            && forall i :: 0 <= i < |rows| ==> rows[i].status.Completed? || (rows[i].status.Paused? && run.steps[i].status == "deferred"))
      && (status.PausedForReview? <==> open && !status.Failed? && !status.Completed? && run.reviewStatus == "pending")
      && (status.Paused? <==>
            open && !status.Failed? && !status.Completed? && run.reviewStatus != "pending" && run.globalState in {"paused", "safe_mode"})
  {
    PersistMirrors(s, run, now);
    ItemsAndRows(run);
    ExecutionStatusBySteps(run);
    hide Persist, StepRows, Mirrors, ExecutionStatus, CleanWords;
  }

  ghost predicate DistinctIds(rows: seq<Row>) {
    forall i, j :: 0 <= i < j < |rows| ==> rows[i].id != rows[j].id
  }

  lemma {:induction false} LastWithOwn(rows: seq<Row>, i: nat)
    requires DistinctIds(rows) && i < |rows|
    ensures LastWith(rows, rows[i].id) == Some(rows[i])
  {
    if i < |rows| - 1 {
      LastWithOwn(Init(rows), i);
    }
  }

  /** So, where no step is repeated, the stored execution has failed exactly beside a stored step that has. */
  lemma FailedBesideFailedStep(s: Snapshots, run: RunState, now: string)
    requires Persist(s, run, now).result.Ok? && CleanWords(run) && !run.cancelled && run.globalState != "running"
    requires DistinctIds(StepRows(run))
    ensures var stored := Persist(s, run, now).snapshots;
      stored.executions[run.id].status.Failed? <==>
        exists id :: id in Of(stored.steps, run.id) && Of(stored.steps, run.id)[id].status.Failed?
  {
    ExecutionFollowsSteps(s, run, now);
    PersistMirrors(s, run, now);
    var rows, steps := StepRows(run), Of(Persist(s, run, now).snapshots.steps, run.id);
    hide Persist, StepRows, CleanWords;
    forall i | 0 <= i < |rows|
      ensures rows[i].id in steps && steps[rows[i].id].status == rows[i].status
    {
      LastWithOwn(rows, i);
    }
    forall id | id in steps
      ensures exists i :: 0 <= i < |rows| && rows[i].id == id && steps[id].status == rows[i].status
    {
      LastWithFinds(rows, id);
    }
  }

  /** The text a status is stored as. */
  function Word(status: RowStatus): string {
    match status
    case Pending => "pending"
    case Running => "running"
    case Paused => "paused"
    case PausedForReview => "paused_for_review"
    case AwaitingReview => "awaiting_review"
    case PauseForOperatorRecovery => "pause_for_operator_recovery"
    case Completed => "completed"
    case Cancelled => "cancelled"
    case Failed => "failed"
    case ExecutionAbandoned => "execution_abandoned"
    case Corrupted => "corrupted"
    case Other(name) => name
  }

  /** The other words for the same: a step that timed out or was blocked has failed, one that awaits its review is paused for it,
      a deferred one is paused, and any word nobody knows leaves it pending. */
  lemma OtherWords(word: string)
    requires Normalisers.Clean(word) == word
    ensures word in {"timeout", "blocked"} ==> StepStatus(word).Failed?
    ensures word == "awaiting_review" ==> StepStatus(word).PausedForReview?
    ensures word == "deferred" ==> StepStatus(word).Paused?
    ensures (word !in {"running", "completed", "failed", "timeout", "blocked", "cancelled", "paused_for_review", "awaiting_review"}
             && word !in {"paused", "deferred"}) ==> StepStatus(word).Pending?
    ensures word !in {"running", "completed", "failed", "paused_for_review"} ==> StageStatus(word).Pending?
  {
    hide Normalisers.Clean;
  }

  predicate PlainWord(word: string) {
    word != "" && !ExecutionTables.IsSpace(word[0]) && !ExecutionTables.IsSpace(Last(word))
    && forall c :: c in word ==> !('A' <= c <= 'Z')
  }

  lemma PlainIsClean(word: string)
    requires PlainWord(word)
    ensures Normalisers.Clean(word) == word
  {
    assert Normalisers.Trim(word) == word;
    assert forall i :: 0 <= i < |word| ==> word[i] in word && Normalisers.LowerChar(word[i]) == word[i];
    assert Normalisers.Lower(word) == word;
  }

  lemma StatusWordSettles(status: RowStatus)
    requires status in {Pending, Running, Paused, PausedForReview, Completed, Cancelled, Failed}
    ensures StepStatus(Word(status)) == status
    ensures status in {Pending, Running, PausedForReview, Completed, Failed} ==> StageStatus(Word(status)) == status
  {
    assert PlainWord(Word(status));
    PlainIsClean(Word(status));
    hide Normalisers.Clean;
  }

  lemma StoredStatuses(word: string)
    ensures StepStatus(word) in {Pending, Running, Paused, PausedForReview, Completed, Cancelled, Failed}
    ensures StageStatus(word) in {Pending, Running, PausedForReview, Completed, Failed}
  {
    hide Normalisers.Clean;
  }

  /** The items of a run with the statuses their rows were stored with. */
  function ReadBack(items: seq<RunItem>, rows: seq<Row>): (r: seq<RunItem>)
    requires |items| == |rows|
    ensures |r| == |items|
  {
    seq(|items|, i requires 0 <= i < |items| => items[i].(status := Word(rows[i].status)))
  }

  function Reread(run: RunState): RunState {
    run.(steps := ReadBack(run.steps, StepRows(run)), stages := ReadBack(run.stages, StageRows(run)))
  }

  predicate SamePlaces(rows: seq<Row>, again: seq<Row>) {
    |again| == |rows| && forall i :: 0 <= i < |rows| ==>
      again[i].id == rows[i].id && again[i].status == rows[i].status && again[i].sequence == rows[i].sequence
  }

  lemma RereadSettles(run: RunState)
    ensures SamePlaces(StepRows(run), StepRows(Reread(run))) && SamePlaces(StageRows(run), StageRows(Reread(run)))
  {
    forall i | 0 <= i < |run.steps|
      ensures StepStatus(Word(StepStatus(run.steps[i].status))) == StepStatus(run.steps[i].status)
    {
      StoredStatuses(run.steps[i].status);
      StatusWordSettles(StepStatus(run.steps[i].status));
    }
    forall i | 0 <= i < |run.stages|
      ensures StageStatus(Word(StageStatus(run.stages[i].status))) == StageStatus(run.stages[i].status)
    {
      StoredStatuses(run.stages[i].status);
      StatusWordSettles(StageStatus(run.stages[i].status));
    }
    hide Word, StepStatus, StageStatus;
  }

  lemma {:induction false} SamePlacesSameLast(rows: seq<Row>, again: seq<Row>, id: string)
    requires SamePlaces(rows, again)
    ensures LastWith(again, id).Some? <==> LastWith(rows, id).Some?
    ensures LastWith(rows, id).Some? ==>
      LastWith(again, id).value.status == LastWith(rows, id).value.status && LastWith(again, id).value.sequence == LastWith(rows, id).value.sequence
  {
    if rows != [] {
      SamePlacesSameLast(Init(rows), Init(again), id);
    }
  }

  lemma SamePlacesSameMirror(rows: seq<Row>, again: seq<Row>, before: map<string, Row>, after: map<string, Row>)
    requires SamePlaces(rows, again) && Mirrors(before, rows) && Mirrors(after, again)
    ensures after.Keys == before.Keys
    ensures forall id :: id in before ==> after[id].status == before[id].status && after[id].sequence == before[id].sequence
  {
    forall id
      ensures id in after <==> id in before
      ensures id in before ==> after[id].status == before[id].status && after[id].sequence == before[id].sequence
    {
      SamePlacesSameLast(rows, again, id);
    }
  }

  /** Statuses settle with the first snapshot: naming what was stored and storing it again changes no step and no stage. */
  lemma StoringAgainChangesNoStatus(s: Snapshots, run: RunState, now: string, later: string)
    requires Persist(s, run, now).result.Ok?
    requires Persist(Persist(s, run, now).snapshots, Reread(run), later).result.Ok?
    ensures var once := Persist(s, run, now).snapshots; var twice := Persist(once, Reread(run), later).snapshots;
      && Of(twice.steps, run.id).Keys == Of(once.steps, run.id).Keys && Of(twice.stages, run.id).Keys == Of(once.stages, run.id).Keys
      && (forall id :: HasStep(once, run.id, id) ==> Of(twice.steps, run.id)[id].status == Of(once.steps, run.id)[id].status)
      && (forall id :: HasStage(once, run.id, id) ==> Of(twice.stages, run.id)[id].status == Of(once.stages, run.id)[id].status)
  {
    var once := Persist(s, run, now).snapshots;
    var twice := Persist(once, Reread(run), later).snapshots;
    PersistMirrors(s, run, now);
    PersistMirrors(once, Reread(run), later);
    RereadSettles(run);
    hide Persist, Mirrors, StepRows, StageRows, SamePlaces;
    SamePlacesSameMirror(StepRows(run), StepRows(Reread(run)), Of(once.steps, run.id), Of(twice.steps, run.id));
    SamePlacesSameMirror(StageRows(run), StageRows(Reread(run)), Of(once.stages, run.id), Of(twice.stages, run.id));
  }

  lemma NormalizedStatus(run: RunState, now: string)
    ensures NormalizeExecution(run, now).status == ExecutionStatus(run)
  {
  }

  /** The lease and counter columns of an existing execution become whatever the run object says; only the last moment of progress
      is not forgotten. */
  lemma SnapshotOverwritesCounters(s: Snapshots, run: RunState, now: string)
    requires Persist(s, run, now).result.Ok? && run.id in s.executions
    ensures var row := Persist(s, run, now).snapshots.executions[run.id];
      && row.counters.leaseOwner == run.counters.leaseOwner && row.counters.leaseExpiresAt == run.counters.leaseExpiresAt
      && row.counters.totalAttempts == run.counters.totalAttempts
      && row.counters.consecutiveFailures == run.counters.consecutiveFailures
      && row.counters.noProgressAttempts == run.counters.noProgressAttempts
      && row.counters.lastProgressAt ==
           (if run.counters.lastProgressAt.Some? then run.counters.lastProgressAt else s.executions[run.id].counters.lastProgressAt)
  {
  }

  /** The rest of an execution's row: its plan and details as handed over, a review wanted exactly while it is paused for one or
      one is pending, its creation as first stored, and a start as soon as the run or one of its steps has one or it runs. */
  lemma ExecutionRowFollows(s: Snapshots, run: RunState, now: string)
    requires Persist(s, run, now).result.Ok?
    ensures var row := Persist(s, run, now).snapshots.executions[run.id]; var known := run.id in s.executions;
      && row.planId == run.planId && row.details == run.details
      && (row.requiresReview <==> row.status.PausedForReview? || run.reviewStatus == "pending")
      && row.createdAt == (if known then s.executions[run.id].createdAt else run.createdAt)
      && (run.startedAt.Some? ==> row.startedAt == run.startedAt)
      && (run.startedAt.None? ==>
            forall i :: 0 <= i < |run.steps| && run.steps[i].startedAt.Some? && (forall j :: 0 <= j < i ==> run.steps[j].startedAt.None?)
              ==> row.startedAt == run.steps[i].startedAt)
      && (run.startedAt.None? && (forall i :: 0 <= i < |run.steps| ==> run.steps[i].startedAt.None?) ==>
            row.startedAt == if row.status.Running? then Some(now) else if known then s.executions[run.id].startedAt else None)
  {
    StartFollows(run, now);
    PersistedRow(s, run, now);
    hide Persist, ExecutionStatus, FirstStart;
  }

  lemma PersistedRow(s: Snapshots, run: RunState, now: string)
    requires Persist(s, run, now).result.Ok?
    ensures run.id in Persist(s, run, now).snapshots.executions
    ensures Persist(s, run, now).snapshots.executions[run.id] == MergeExecution(s.executions, run.id, NormalizeExecution(run, now))
  {
    hide StageRows, StepRows, UpsertAll, RowsMayMove, Only, Ids, NormalizeExecution, MergeExecution;
  }

  lemma StartFollows(run: RunState, now: string)
    ensures var started := NormalizeExecution(run, now).startedAt;
      && (run.startedAt.Some? ==> started == run.startedAt)
      && (run.startedAt.None? ==>
            forall i :: 0 <= i < |run.steps| && run.steps[i].startedAt.Some? && (forall j :: 0 <= j < i ==> run.steps[j].startedAt.None?)
              ==> started == run.steps[i].startedAt)
      && (run.startedAt.None? && (forall i :: 0 <= i < |run.steps| ==> run.steps[i].startedAt.None?) ==>
            started == if NormalizeExecution(run, now).status.Running? then Some(now) else None)
  {
    FirstStartIs(run.steps);
    hide ExecutionStatus, FirstStart;
  }

  lemma {:induction false} FirstStartIs(steps: seq<RunItem>)
    ensures forall i :: 0 <= i < |steps| && steps[i].startedAt.Some? && (forall j :: 0 <= j < i ==> steps[j].startedAt.None?) ==>
      FirstStart(steps) == steps[i].startedAt
    ensures (forall i :: 0 <= i < |steps| ==> steps[i].startedAt.None?) ==> FirstStart(steps) == None
  {
    if steps != [] {
      FirstStartIs(steps[1..]);
      assert forall i :: 1 <= i < |steps| ==> steps[i] == steps[1..][i - 1];
    }
  }

  // ----- History over any sequence of snapshots -----

  datatype Snapshot = Snapshot(run: RunState, now: string)

  function PersistAll(s: Snapshots, snapshots: seq<Snapshot>): Snapshots {
    if snapshots == [] then s
    else Persist(PersistAll(s, Init(snapshots)), Last(snapshots).run, Last(snapshots).now).snapshots
  }

  predicate HasStep(s: Snapshots, execution: string, id: string) {
    id in Of(s.steps, execution)
  }

  predicate HasStage(s: Snapshots, execution: string, id: string) {
    id in Of(s.stages, execution)
  }

  /** What a row may not lose: a settled status, its original input, an idempotency key once set. */
  predicate Remembers(before: Row, after: Row) {
    && (Settled(before.status) ==> after.status == before.status)
    && (before.originalInput.Some? ==> after.originalInput == before.originalInput)
    && (before.originalText.Some? ==> after.originalText == before.originalText)
    && (before.idempotencyKey.Some? ==> after.idempotencyKey == before.idempotencyKey)
    && (before.startedAt.Some? ==> after.startedAt.Some?)
  }

  lemma RowsRemember(rows: map<string, Row>, incoming: seq<Row>, id: string)
    requires id in rows && RowsMayMove(rows, incoming) && UpsertAll(rows, incoming).Some?
    ensures id in UpsertAll(rows, incoming).value && Remembers(rows[id], UpsertAll(rows, incoming).value[id])
  {
    UpsertKeepsHistory(rows, incoming, id);
    if Settled(rows[id].status) {
      forall i | 0 <= i < |incoming| && incoming[i].id == id
        ensures incoming[i].status == rows[id].status
      {
        assert IsValidTransition(rows[id].status, incoming[i].status);
      }
    }
  }

  lemma EveryRowRemembersItself()
    ensures forall r: Row :: Remembers(r, r)
  {
  }

  lemma OneSnapshotRemembers(s: Snapshots, run: RunState, now: string, execution: string, id: string)
    ensures var after := Persist(s, run, now).snapshots;
      && (HasStep(s, execution, id) && HasStep(after, execution, id) ==>
            Remembers(Of(s.steps, execution)[id], Of(after.steps, execution)[id]))
      && (HasStage(s, execution, id) && HasStage(after, execution, id) ==>
            Remembers(Of(s.stages, execution)[id], Of(after.stages, execution)[id]))
      && (execution in s.executions ==> execution in after.executions)
      && (execution in s.executions && Settled(s.executions[execution].status) ==>
            after.executions[execution].status == s.executions[execution].status)
  {
    hide NormalizeExecution, StageRows, StepRows, UpsertAll, RowsMayMove, ExecutionStatus, Remembers;
    EveryRowRemembersItself();
    if Persist(s, run, now).result.Ok? && execution == run.id {
      var steps, stages := Of(s.steps, execution), Of(s.stages, execution);
      if id in steps {
        RowsRemember(steps, StepRows(run), id);
      }
      if id in stages {
        RowsRemember(stages, StageRows(run), id);
      }
    }
  }

  ghost predicate StepSurvives(s: Snapshots, snapshots: seq<Snapshot>, execution: string, id: string) {
    forall k :: 0 <= k <= |snapshots| ==> HasStep(PersistAll(s, snapshots[..k]), execution, id)
  }

  ghost predicate StageSurvives(s: Snapshots, snapshots: seq<Snapshot>, execution: string, id: string) {
    forall k :: 0 <= k <= |snapshots| ==> HasStage(PersistAll(s, snapshots[..k]), execution, id)
  }

  /** A step row that survives a sequence of snapshots keeps a settled status, its input and its key. */
  lemma {:induction false} SurvivingStepRemembers(s: Snapshots, snapshots: seq<Snapshot>, execution: string, id: string)
    requires StepSurvives(s, snapshots, execution, id)
    ensures HasStep(s, execution, id) && HasStep(PersistAll(s, snapshots), execution, id)
    ensures Remembers(Of(s.steps, execution)[id], Of(PersistAll(s, snapshots).steps, execution)[id])
  {
    assert snapshots[..|snapshots|] == snapshots && snapshots[..0] == [];
    assert HasStep(PersistAll(s, snapshots[..0]), execution, id);
    assert HasStep(PersistAll(s, snapshots[..|snapshots|]), execution, id);
    if snapshots != [] {
      assert forall k :: 0 <= k < |snapshots| ==> Init(snapshots)[..k] == snapshots[..k];
      SurvivingStepRemembers(s, Init(snapshots), execution, id);
      OneSnapshotRemembers(PersistAll(s, Init(snapshots)), Last(snapshots).run, Last(snapshots).now, execution, id);
    }
  }

  lemma {:induction false} SurvivingStageRemembers(s: Snapshots, snapshots: seq<Snapshot>, execution: string, id: string)
    requires StageSurvives(s, snapshots, execution, id)
    ensures HasStage(s, execution, id) && HasStage(PersistAll(s, snapshots), execution, id)
    ensures Remembers(Of(s.stages, execution)[id], Of(PersistAll(s, snapshots).stages, execution)[id])
  {
    assert snapshots[..|snapshots|] == snapshots && snapshots[..0] == [];
    assert HasStage(PersistAll(s, snapshots[..0]), execution, id);
    assert HasStage(PersistAll(s, snapshots[..|snapshots|]), execution, id);
    if snapshots != [] {
      assert forall k :: 0 <= k < |snapshots| ==> Init(snapshots)[..k] == snapshots[..k];
      SurvivingStageRemembers(s, Init(snapshots), execution, id);
      OneSnapshotRemembers(PersistAll(s, Init(snapshots)), Last(snapshots).run, Last(snapshots).now, execution, id);
    }
  }

  /** An execution row is never deleted, and once settled it keeps its status for good. */
  lemma {:induction false} SettledExecutionStaysSettled(s: Snapshots, snapshots: seq<Snapshot>, execution: string)
    requires execution in s.executions && Settled(s.executions[execution].status)
    ensures execution in PersistAll(s, snapshots).executions
    ensures PersistAll(s, snapshots).executions[execution].status == s.executions[execution].status
  {
    if snapshots != [] {
      SettledExecutionStaysSettled(s, Init(snapshots), execution);
      OneSnapshotRemembers(PersistAll(s, Init(snapshots)), Last(snapshots).run, Last(snapshots).now, execution, "");
    }
  }
}
