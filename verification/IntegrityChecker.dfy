/** The attempt section of `collectIntegrityIssues` in services/executionReconciliation.js: what it computes,
    what that means, and which operations keep it silent. */
module IntegrityChecker {
  import opened Common
  import opened ExecutionTables
  import opened AttemptIdentity

  datatype IssueCode = InvalidAttemptSequence | IdempotencyMismatch | LedgerMissing | MultipleActiveAttempts

  // ----- Grouping and sorting -----

  function Select<T(!new)>(items: seq<T>, key: T -> string, k: string): (r: seq<T>)
    ensures forall x :: x in r <==> x in items && key(x) == k
  {
    if items == [] then []
    else
      assert items == Init(items) + [Last(items)];
      var here := if key(Last(items)) == k then [Last(items)] else [];
      Select(Init(items), key, k) + here
  }

  /** `groupBy`: the keys in order of first appearance, and the items of each key in their original order. */
  method GroupBy<T(!new)>(items: seq<T>, key: T -> string) returns (order: seq<string>, groups: map<string, seq<T>>)
    ensures Distinct(order) && forall k :: k in order <==> k in groups
    ensures forall k :: k in groups ==> groups[k] == Select(items, key, k)
    ensures forall k :: k !in groups ==> Select(items, key, k) == []
  {
    order, groups := [], map[];
    for i := 0 to |items|
      invariant Distinct(order) && forall k :: k in order <==> k in groups
      invariant forall k :: k in groups ==> groups[k] == Select(items[..i], key, k)
      invariant forall k :: k !in groups ==> Select(items[..i], key, k) == []
    {
      assert Init(items[..i + 1]) == items[..i];
      var k := key(items[i]);
      if k !in groups {
        order := order + [k];
        groups := groups[k := []];
      }
      groups := groups[k := groups[k] + [items[i]]];
    }
    assert items[..|items|] == items;
  }

  function NumbersOf(rows: seq<Attempt>): (r: seq<nat>)
    ensures |r| == |rows| && forall i :: 0 <= i < |r| ==> r[i] == rows[i].number
  {
    seq(|rows|, i requires 0 <= i < |rows| => rows[i].number)
  }

  function RunningCount(rows: seq<Attempt>): nat {
    if rows == [] then 0
    else
      var here := if Last(rows).status.Running? then 1 else 0;
      RunningCount(Init(rows)) + here
  }

  ghost predicate Ascending(numbers: seq<nat>) {
    forall i, j :: 0 <= i < j < |numbers| ==> numbers[i] <= numbers[j]
  }

  lemma {:induction false} RunningCountSplits(a: seq<Attempt>, b: seq<Attempt>)
    ensures RunningCount(a + b) == RunningCount(a) + RunningCount(b)
  {
    if b == [] {
      assert a + b == a;
    } else {
      RunningCountSplits(a, Init(b));
      assert Init(a + b) == a + Init(b);
    }
  }

  function Inserted(rows: seq<Attempt>, at: nat, x: Attempt): seq<Attempt>
    requires at <= |rows|
  {
    rows[..at] + [x] + rows[at..]
  }

  lemma NumbersOfInserted(rows: seq<Attempt>, at: nat, x: Attempt)
    requires at <= |rows|
    ensures NumbersOf(Inserted(rows, at, x)) == NumbersOf(rows)[..at] + [x.number] + NumbersOf(rows)[at..]
  {
  }

  lemma InsertNumber(rows: seq<Attempt>, at: nat, x: Attempt)
    requires at <= |rows| && Ascending(NumbersOf(rows))
    requires at > 0 ==> rows[at - 1].number <= x.number
    requires at < |rows| ==> x.number < rows[at].number
    ensures Ascending(NumbersOf(Inserted(rows, at, x)))
  {
    NumbersOfInserted(rows, at, x);
    InsertAscending(NumbersOf(rows), at, x.number);
  }

  lemma InsertAscending(numbers: seq<nat>, at: nat, n: nat)
    requires at <= |numbers| && Ascending(numbers)
    requires (at > 0 ==> numbers[at - 1] <= n) && (at < |numbers| ==> n < numbers[at])
    ensures Ascending(numbers[..at] + [n] + numbers[at..])
  {
  }

  lemma BagOfInsertion<T>(front: seq<T>, x: T, back: seq<T>)
    ensures multiset(front + [x] + back) == multiset(front + back) + multiset{x}
  {
    assert multiset(front + [x] + back) == multiset(front) + multiset([x]) + multiset(back);
  }

  lemma InsertKeepsTheBag(rows: seq<Attempt>, at: nat, x: Attempt)
    requires at <= |rows|
    ensures multiset(Inserted(rows, at, x)) == multiset(rows) + multiset{x}
    ensures multiset(NumbersOf(Inserted(rows, at, x))) == multiset(NumbersOf(rows)) + multiset{x.number}
  {
    hide NumbersOf;
    var numbers := NumbersOf(rows);
    assert rows[..at] + rows[at..] == rows && numbers[..at] + numbers[at..] == numbers;
    BagOfInsertion(rows[..at], x, rows[at..]);
    NumbersOfInserted(rows, at, x);
    BagOfInsertion(numbers[..at], x.number, numbers[at..]);
  }

  lemma InsertCounts(rows: seq<Attempt>, at: nat, x: Attempt)
    requires at <= |rows|
    ensures RunningCount(Inserted(rows, at, x)) == RunningCount(rows) + RunningCount([x])
  {
    RunningCountSplits(rows[..at] + [x], rows[at..]);
    RunningCountSplits(rows[..at], [x]);
    RunningCountSplits(rows[..at], rows[at..]);
    assert rows == rows[..at] + rows[at..];
  }

  /** The rows with one more in its place: after all that are not greater. */
  method InsertInPlace(rows: seq<Attempt>, x: Attempt) returns (r: seq<Attempt>)
    requires Ascending(NumbersOf(rows))
    ensures Ascending(NumbersOf(r))
    ensures multiset(r) == multiset(rows) + multiset{x}
    ensures multiset(NumbersOf(r)) == multiset(NumbersOf(rows)) + multiset{x.number}
    ensures RunningCount(r) == RunningCount(rows) + RunningCount([x])
  {
    hide Ascending, RunningCount, NumbersOf;
    var at := |rows|;
    while at > 0 && x.number < rows[at - 1].number
      invariant 0 <= at <= |rows| && (at < |rows| ==> x.number < rows[at].number)
    {
      at := at - 1;
    }
    InsertNumber(rows, at, x);
    InsertKeepsTheBag(rows, at, x);
    InsertCounts(rows, at, x);
    r := Inserted(rows, at, x);
  }

  lemma OneMoreRow(rows: seq<Attempt>, k: nat)
    requires k < |rows|
    ensures multiset(rows[..k + 1]) == multiset(rows[..k]) + multiset{rows[k]}
    ensures multiset(NumbersOf(rows[..k + 1])) == multiset(NumbersOf(rows[..k])) + multiset{rows[k].number}
    ensures RunningCount(rows[..k + 1]) == RunningCount(rows[..k]) + RunningCount([rows[k]])
  {
    assert rows[..k + 1] == rows[..k] + [rows[k]];
    assert NumbersOf(rows[..k + 1]) == NumbersOf(rows[..k]) + [rows[k].number];
    RunningCountSplits(rows[..k], [rows[k]]);
  }

  /** `[...rows].sort((l, r) => l.attemptNumber - r.attemptNumber)`. */
  method SortByNumber(rows: seq<Attempt>) returns (r: seq<Attempt>)
    ensures Ascending(NumbersOf(r)) && multiset(r) == multiset(rows)
    ensures multiset(NumbersOf(r)) == multiset(NumbersOf(rows))
    ensures RunningCount(r) == RunningCount(rows)
  {
    r := [];
    for k := 0 to |rows|
      invariant Ascending(NumbersOf(r)) && multiset(r) == multiset(rows[..k])
      invariant multiset(NumbersOf(r)) == multiset(NumbersOf(rows[..k]))
      invariant RunningCount(r) == RunningCount(rows[..k])
    {
      r := InsertInPlace(r, rows[k]);
      OneMoreRow(rows, k);
    }
    assert rows[..|rows|] == rows;
  }

  function UpTo(n: nat): (r: seq<nat>)
    ensures |r| == n && forall i :: 0 <= i < n ==> r[i] == i + 1
  {
    seq(n, i requires 0 <= i < n => i + 1)
  }

  lemma {:induction false} AscendingIsCanonical(a: seq<nat>, b: seq<nat>)
    requires Ascending(a) && Ascending(b) && multiset(a) == multiset(b)
    ensures a == b
  {
    assert |multiset(a)| == |a| && |multiset(b)| == |b|;
    if a != [] {
      LastIsLargest(a, b);
      LastIsLargest(b, a);
      DropLast(a);
      DropLast(b);
      AscendingIsCanonical(Init(a), Init(b));
    }
  }

  lemma LastIsLargest(a: seq<nat>, b: seq<nat>)
    requires a != [] && b != [] && Ascending(b) && multiset(a) == multiset(b)
    ensures Last(a) <= Last(b)
  {
    assert Last(a) in multiset(b);
    var i :| 0 <= i < |b| && b[i] == Last(a);
  }

  lemma DropLast(a: seq<nat>)
    requires a != []
    ensures multiset(Init(a)) == multiset(a) - multiset{Last(a)}
    ensures Ascending(a) ==> Ascending(Init(a))
    ensures a == Init(a) + [Last(a)]
  {
    assert a == Init(a) + [Last(a)];
  }

  // ----- The check on colon-joined keys, as it is coded -----

  function GroupKey(a: Attempt): string {
    a.executionId + ":" + a.stepId
  }

  function AttemptKey(a: Attempt): string {
    GroupKey(a) + ":" + Decimal(a.number)
  }

  function OrNull(s: Option<string>): string {
    if s.Some? then s.value else "null"
  }

  function EventKey(e: Event): string {
    OrNull(e.executionId) + ":" + OrNull(e.stepId) + ":"
      + if e.attemptNumber.Some? then Decimal(e.attemptNumber.value) else "null"
  }

  function StartedIn(events: seq<Event>): nat {
    if events == [] then 0
    else
      var here := if Last(events).kind.AttemptStarted? then 1 else 0;
      StartedIn(Init(events)) + here
  }

  function FinalizedIn(events: seq<Event>, status: AttemptStatus): nat {
    if events == [] then 0
    else
      var here := if Last(events).kind == AttemptFinalized(status) then 1 else 0;
      FinalizedIn(Init(events), status) + here
  }

  predicate HasKeyIfNeeded(a: Attempt) {
    a.sideEffect.ExternalWrite? ==> a.idempotencyKey.Some? && a.idempotencyKey.value != ""
  }

  /** The numbers of the rows are 1, ..., n, each once. */
  ghost predicate CompleteNumbering(rows: seq<Attempt>) {
    multiset(NumbersOf(rows)) == multiset(UpTo(|rows|))
  }

  predicate KeyedClean(a: Attempt, ledger: seq<Event>) {
    var events := Select(ledger, EventKey, AttemptKey(a));
    && HasKeyIfNeeded(a)
    && StartedIn(events) == 1
    && (!a.status.Running? ==> FinalizedIn(events, a.status) == 1)
  }

  ghost predicate KeyedGroupClean(rows: seq<Attempt>, ledger: seq<Event>) {
    && CompleteNumbering(rows)
    && (forall a :: a in rows ==> KeyedClean(a, ledger))
    && RunningCount(rows) <= 1
  }

  ghost predicate KeyedConsistent(attempts: seq<Attempt>, ledger: seq<Event>) {
    forall k :: KeyedGroupClean(Select(attempts, GroupKey, k), ledger)
  }

  ghost predicate GroupsOf(groups: map<string, seq<Event>>, ledger: seq<Event>) {
    forall k :: Select(ledger, EventKey, k) == if k in groups then groups[k] else []
  }

  /** An external write without a usable key. */
  predicate LacksKey(a: Attempt) {
    a.sideEffect.ExternalWrite? && (a.idempotencyKey == None || a.idempotencyKey == Some(""))
  }

  /** Under the attempt's key there is not exactly one start on record or, once it has ended, not exactly one end of its kind. */
  predicate BadlyRecorded(a: Attempt, ledger: seq<Event>) {
    || |StartsUnder(ledger, AttemptKey(a))| != 1
    || (a.status in {Completed, Failed, Cancelled, Abandoned} && |EndsUnder(ledger, AttemptKey(a), a.status)| != 1)
  }

  function StartsUnder(ledger: seq<Event>, key: string): set<int> {
    Positions(ledger, (e: Event) => EventKey(e) == key && e.kind.AttemptStarted?)
  }

  function EndsUnder(ledger: seq<Event>, key: string, status: AttemptStatus): set<int> {
    Positions(ledger, (e: Event) => EventKey(e) == key && e.kind == AttemptFinalized(status))
  }

  lemma UnderGrow(ledger: seq<Event>, key: string, status: AttemptStatus)
    requires ledger != []
    ensures |StartsUnder(ledger, key)| == |StartsUnder(Init(ledger), key)|
      + if EventKey(Last(ledger)) == key && Last(ledger).kind.AttemptStarted? then 1 else 0
    ensures |EndsUnder(ledger, key, status)| == |EndsUnder(Init(ledger), key, status)|
      + if EventKey(Last(ledger)) == key && Last(ledger).kind == AttemptFinalized(status) then 1 else 0
  {
    hide EventKey, Positions;
    PositionsGrow(ledger, (e: Event) => EventKey(e) == key && e.kind.AttemptStarted?);
    PositionsGrow(ledger, (e: Event) => EventKey(e) == key && e.kind == AttemptFinalized(status));
  }

  /** How many starts and ends there are under a key. */
  lemma {:induction false} EventsUnderKey(ledger: seq<Event>, key: string, status: AttemptStatus)
    ensures StartedIn(Select(ledger, EventKey, key)) == |StartsUnder(ledger, key)|
    ensures FinalizedIn(Select(ledger, EventKey, key), status) == |EndsUnder(ledger, key, status)|
  {
    hide EventKey, StartsUnder, EndsUnder;
    if ledger == [] {
      NoneUnder(key, status);
    } else {
      EventsUnderKey(Init(ledger), key, status);
      UnderGrow(ledger, key, status);
      var events, e := Select(Init(ledger), EventKey, key), Last(ledger);
      assert Init(events + [e]) == events;
      assert Select(ledger, EventKey, key) == if EventKey(e) == key then events + [e] else events;
    }
  }

  lemma NoneUnder(key: string, status: AttemptStatus)
    ensures StartsUnder([], key) == {} && EndsUnder([], key, status) == {}
  {
  }

  lemma RecordsMean(a: Attempt, ledger: seq<Event>)
    ensures BadlyRecorded(a, ledger) <==>
      var events := Select(ledger, EventKey, AttemptKey(a));
      StartedIn(events) != 1 || (!a.status.Running? && FinalizedIn(events, a.status) != 1)
  {
    EventsUnderKey(ledger, AttemptKey(a), a.status);
    hide EventKey, AttemptKey, StartedIn, FinalizedIn;
  }

  method CheckAttempt(attempt: Attempt, byAttempt: map<string, seq<Event>>, ghost ledger: seq<Event>)
    returns (issues: seq<IssueCode>)
    requires GroupsOf(byAttempt, ledger)
    ensures issues == [] <==> KeyedClean(attempt, ledger)
    ensures forall c :: c in issues ==> c in {IdempotencyMismatch, LedgerMissing}
    ensures IdempotencyMismatch in issues <==> LacksKey(attempt)
    ensures LedgerMissing in issues <==> BadlyRecorded(attempt, ledger)
  {
    RecordsMean(attempt, ledger);
    hide EventKey, AttemptKey, StartedIn, FinalizedIn, BadlyRecorded;
    issues := [];
    if attempt.sideEffect.ExternalWrite? && (attempt.idempotencyKey.None? || attempt.idempotencyKey.value == "") {
      issues := issues + [IdempotencyMismatch];
    }
    var key := AttemptKey(attempt);
    var entries := if key in byAttempt then byAttempt[key] else [];
    if StartedIn(entries) != 1 {
      issues := issues + [LedgerMissing];
    }
    if !attempt.status.Running? && FinalizedIn(entries, attempt.status) != 1 {
      issues := issues + [LedgerMissing];
    }
  }

  /** Sorting changes neither the rows nor how many run, and a sorted complete numbering is 1, ..., n. */
  lemma SortedVerdict(rows: seq<Attempt>, ordered: seq<Attempt>)
    requires Ascending(NumbersOf(ordered)) && multiset(ordered) == multiset(rows)
    requires multiset(NumbersOf(ordered)) == multiset(NumbersOf(rows))
    ensures forall a :: a in ordered <==> a in rows
    ensures CompleteNumbering(rows) <==> NumbersOf(ordered) == UpTo(|ordered|)
  {
    assert forall a :: a in ordered <==> a in multiset(ordered);
    assert forall a :: a in rows <==> a in multiset(rows);
    assert |multiset(ordered)| == |ordered| && |multiset(rows)| == |rows|;
    if CompleteNumbering(rows) {
      AscendingIsCanonical(NumbersOf(ordered), UpTo(|ordered|));
    }
  }

  ghost predicate AllClean(rows: seq<Attempt>, ledger: seq<Event>) {
    forall a :: a in rows ==> KeyedClean(a, ledger)
  }

  lemma OneMoreClean(rows: seq<Attempt>, k: nat, ledger: seq<Event>)
    requires k < |rows|
    ensures AllClean(rows[..k + 1], ledger) <==> AllClean(rows[..k], ledger) && KeyedClean(rows[k], ledger)
  {
    hide KeyedClean;
    assert rows[..k + 1] == rows[..k] + [rows[k]];
  }

  /** What the walk over the sorted rows has found when it stops at `k`. */
  lemma GroupVerdict(rows: seq<Attempt>, ordered: seq<Attempt>, ledger: seq<Event>, k: nat)
    requires Ascending(NumbersOf(ordered)) && multiset(ordered) == multiset(rows)
    requires multiset(NumbersOf(ordered)) == multiset(NumbersOf(rows)) && RunningCount(ordered) == RunningCount(rows)
    requires k <= |ordered| && NumbersOf(ordered[..k]) == UpTo(k) && (k < |ordered| ==> ordered[k].number != k + 1)
    ensures KeyedGroupClean(rows, ledger) <==> k == |ordered| && AllClean(ordered, ledger) && RunningCount(ordered) <= 1
  {
    hide KeyedClean, RunningCount, CompleteNumbering, Ascending;
    SortedVerdict(rows, ordered);
    if k < |ordered| {
      assert NumbersOf(ordered)[k] != UpTo(|ordered|)[k];
    } else {
      assert ordered[..k] == ordered;
    }
  }

  lemma OneMoreNumber(rows: seq<Attempt>, k: nat)
    requires k < |rows| && NumbersOf(rows[..k]) == UpTo(k) && rows[k].number == k + 1
    ensures NumbersOf(rows[..k + 1]) == UpTo(k + 1)
  {
    assert rows[..k + 1] == rows[..k] + [rows[k]];
  }

  /** One step's attempts: sorted, walked until the numbering breaks, running ones counted. */
  method CheckGroup(rows: seq<Attempt>, byAttempt: map<string, seq<Event>>, ghost ledger: seq<Event>)
    returns (issues: seq<IssueCode>)
    requires GroupsOf(byAttempt, ledger)
    ensures issues == [] <==> KeyedGroupClean(rows, ledger)
    ensures InvalidAttemptSequence in issues <==> !CompleteNumbering(rows)
    ensures CompleteNumbering(rows) ==>
      && (MultipleActiveAttempts in issues <==> RunningCount(rows) > 1)
      && (IdempotencyMismatch in issues <==> exists a :: a in rows && LacksKey(a))
      && (LedgerMissing in issues <==> exists a :: a in rows && BadlyRecorded(a, ledger))
  {
    hide KeyedClean, KeyedGroupClean, GroupsOf, Ascending, AllClean, NumbersOf, UpTo, RunningCount, LacksKey, BadlyRecorded, CompleteNumbering;
    issues := [];
    var ordered := SortByNumber(rows);
    var expected, running, k := 1, 0, 0;
    NoRowsYet(ordered, ledger);
    while k < |ordered|
      invariant k <= |ordered| && expected == k + 1 && running == RunningCount(ordered[..k])
      invariant NumbersOf(ordered[..k]) == UpTo(k)
      invariant issues == [] <==> AllClean(ordered[..k], ledger)
      invariant InvalidAttemptSequence !in issues && MultipleActiveAttempts !in issues
      invariant IdempotencyMismatch in issues <==> exists a :: a in ordered[..k] && LacksKey(a)
      invariant LedgerMissing in issues <==> exists a :: a in ordered[..k] && BadlyRecorded(a, ledger)
    {
      var attempt := ordered[k];
      if attempt.number != expected {
        issues := issues + [InvalidAttemptSequence];
        break;
      }
      expected := expected + 1;
      OneMoreRow(ordered, k);
      OneMoreNumber(ordered, k);
      OneMoreClean(ordered, k, ledger);
      assert ordered[..k + 1] == ordered[..k] + [attempt];
      RunningCountOfOne(attempt);
      assert RunningCount([attempt]) == if attempt.status.Running? then 1 else 0;
      if attempt.status.Running? {
        running := running + 1;
      }
      var found := CheckAttempt(attempt, byAttempt, ledger);
      issues := issues + found;
      k := k + 1;
    }
    assert k == |ordered| ==> ordered[..k] == ordered;
    GroupVerdict(rows, ordered, ledger, k);
    SortedVerdict(rows, ordered);
    NumberingBroken(ordered, k);
    if running > 1 {
      issues := issues + [MultipleActiveAttempts];
    }
  }

  lemma RunningCountOfOne(a: Attempt)
    ensures RunningCount([a]) == if a.status.Running? then 1 else 0
  {
    assert Init([a]) == [];
  }

  lemma NumberingBroken(ordered: seq<Attempt>, k: nat)
    requires k <= |ordered| && NumbersOf(ordered[..k]) == UpTo(k) && (k < |ordered| ==> ordered[k].number != k + 1)
    ensures NumbersOf(ordered) == UpTo(|ordered|) <==> k == |ordered|
  {
    if k < |ordered| {
      assert NumbersOf(ordered)[k] != UpTo(|ordered|)[k];
    } else {
      assert ordered[..k] == ordered;
    }
  }

  lemma NoRowsYet(rows: seq<Attempt>, ledger: seq<Event>)
    ensures AllClean(rows[..0], ledger) && NumbersOf(rows[..0]) == UpTo(0) && RunningCount(rows[..0]) == 0
  {
  }

  lemma EmptyGroupClean(events: seq<Event>)
    ensures KeyedGroupClean([], events)
  {
    assert NumbersOf([]) == UpTo(0);
  }

  ghost predicate FirstGroupsClean(attempts: seq<Attempt>, ledger: seq<Event>, order: seq<string>, k: nat)
    requires k <= |order|
  {
    forall j :: 0 <= j < k ==> KeyedGroupClean(Select(attempts, GroupKey, order[j]), ledger)
  }

  lemma OneMoreGroup(attempts: seq<Attempt>, ledger: seq<Event>, order: seq<string>, k: nat)
    requires k < |order|
    ensures FirstGroupsClean(attempts, ledger, order, k + 1)
       <==> FirstGroupsClean(attempts, ledger, order, k) && KeyedGroupClean(Select(attempts, GroupKey, order[k]), ledger)
  {
    hide KeyedGroupClean;
  }

  /** Keys that do not occur have empty groups, and those are clean. */
  lemma OccurringKeysDecide(attempts: seq<Attempt>, ledger: seq<Event>, order: seq<string>)
    requires forall k :: k !in order ==> Select(attempts, GroupKey, k) == []
    ensures FirstGroupsClean(attempts, ledger, order, |order|) <==> KeyedConsistent(attempts, ledger)
  {
    hide KeyedGroupClean, GroupKey;
    EmptyGroupClean(ledger);
    if FirstGroupsClean(attempts, ledger, order, |order|) {
      forall k
        ensures KeyedGroupClean(Select(attempts, GroupKey, k), ledger)
      {
        if k in order {
          var j :| 0 <= j < |order| && order[j] == k;
        }
      }
    }
  }

  /** The attempt section reports nothing exactly when every group of attempts is clean. */
  method CollectAttemptIssues(attempts: seq<Attempt>, ledger: seq<Event>) returns (issues: seq<IssueCode>)
    ensures issues == [] <==> KeyedConsistent(attempts, ledger)
  {
    hide KeyedGroupClean, KeyedConsistent, FirstGroupsClean, GroupKey, EventKey, Select;
    var order, byStep := GroupBy(attempts, GroupKey);
    var _, byAttempt := GroupBy(ledger, EventKey);
    issues := [];
    OccurringKeysDecide(attempts, ledger, order);
    NoGroupYet(attempts, ledger, order);
    for k := 0 to |order|
      invariant issues == [] <==> FirstGroupsClean(attempts, ledger, order, k)
    {
      var found := CheckGroup(byStep[order[k]], byAttempt, ledger);
      OneMoreGroup(attempts, ledger, order, k);
      issues := issues + found;
    }
  }

  lemma NoGroupYet(attempts: seq<Attempt>, ledger: seq<Event>, order: seq<string>)
    ensures FirstGroupsClean(attempts, ledger, order, 0)
  {
  }

  // ----- What the check means -----

  function RowsOf(attempts: seq<Attempt>, plan: Id, execution: Id, step: Id): (r: seq<Attempt>)
    ensures forall a :: a in r <==> a in attempts && OfStep(a, plan, execution, step)
  {
    if attempts == [] then []
    else
      assert attempts == Init(attempts) + [Last(attempts)];
      var here := if OfStep(Last(attempts), plan, execution, step) then [Last(attempts)] else [];
      RowsOf(Init(attempts), plan, execution, step) + here
  }

  predicate Names(e: Event, plan: Id, execution: Id, step: Id, number: nat) {
    e.planId == plan && e.executionId == Some(execution) && e.stepId == Some(step) && e.attemptNumber == Some(number)
  }

  function EventsOf(ledger: seq<Event>, plan: Id, execution: Id, step: Id, number: nat): seq<Event> {
    if ledger == [] then []
    else
      var here := if Names(Last(ledger), plan, execution, step, number) then [Last(ledger)] else [];
      EventsOf(Init(ledger), plan, execution, step, number) + here
  }

  function Started(ledger: seq<Event>, a: Attempt): nat {
    StartedIn(EventsOf(ledger, a.planId, a.executionId, a.stepId, a.number))
  }

  function Finalized(ledger: seq<Event>, a: Attempt, status: AttemptStatus): nat {
    FinalizedIn(EventsOf(ledger, a.planId, a.executionId, a.stepId, a.number), status)
  }

  /** One start event, one matching terminal event if the attempt is terminal, a key on an external write. */
  predicate AttemptClean(a: Attempt, ledger: seq<Event>) {
    HasKeyIfNeeded(a) && Started(ledger, a) == 1 && (!a.status.Running? ==> Finalized(ledger, a, a.status) == 1)
  }

  ghost predicate StepClean(attempts: seq<Attempt>, ledger: seq<Event>, plan: Id, execution: Id, step: Id) {
    var rows := RowsOf(attempts, plan, execution, step);
    && CompleteNumbering(rows)
    && (forall a :: a in rows ==> AttemptClean(a, ledger))
    && RunningCount(rows) <= 1
  }

  /** Every step of every execution of the plan is clean. */
  ghost predicate PlanConsistent(attempts: seq<Attempt>, ledger: seq<Event>, plan: Id) {
    forall e, s :: StepClean(attempts, ledger, plan, e, s)
  }

  function PlanRows(attempts: seq<Attempt>, plan: Id): seq<Attempt> {
    if attempts == [] then []
    else
      var here := if Last(attempts).planId == plan then [Last(attempts)] else [];
      PlanRows(Init(attempts), plan) + here
  }

  function PlanEvents(ledger: seq<Event>, plan: Id): seq<Event> {
    if ledger == [] then []
    else
      var here := if Last(ledger).planId == plan then [Last(ledger)] else [];
      PlanEvents(Init(ledger), plan) + here
  }

  lemma {:induction false} PlanRowsMembers(attempts: seq<Attempt>, plan: Id)
    ensures forall a :: a in PlanRows(attempts, plan) <==> a in attempts && a.planId == plan
  {
    if attempts != [] {
      assert attempts == Init(attempts) + [Last(attempts)];
      PlanRowsMembers(Init(attempts), plan);
    }
  }

  predicate Counted(e: Event) {
    e.kind.AttemptStarted? || e.kind.AttemptFinalized?
  }

  /** No two steps of the plan that have attempts share the text the check groups them by. */
  ghost predicate JoinsDistinct(attempts: seq<Attempt>, plan: Id) {
    forall a, b :: a in attempts && b in attempts && a.planId == plan && b.planId == plan && GroupKey(a) == GroupKey(b) ==>
      a.executionId == b.executionId && a.stepId == b.stepId
  }

  predicate KeyTells(e: Event, a: Attempt) {
    EventKey(e) == AttemptKey(a) <==> Names(e, a.planId, a.executionId, a.stepId, a.number)
  }

  /** Inside the plan the joined texts identify steps, and events find their attempts. */
  ghost predicate KeysIdentify(attempts: seq<Attempt>, ledger: seq<Event>, plan: Id) {
    && JoinsDistinct(attempts, plan)
    && forall a, e :: a in attempts && a.planId == plan && e in ledger && e.planId == plan && Counted(e) ==> KeyTells(e, a)
  }

  /** Every start and every end on record belongs to a stored attempt. */
  ghost predicate EventsNameRows(attempts: seq<Attempt>, ledger: seq<Event>) {
    forall e :: e in ledger && Counted(e) ==> NamesRow(e, attempts)
  }

  predicate NamesRow(e: Event, attempts: seq<Attempt>) {
    exists a :: a in attempts && Names(e, a.planId, a.executionId, a.stepId, a.number)
  }

  lemma AttemptKeysSeparate(a: Attempt, b: Attempt)
    ensures AttemptKey(a) == AttemptKey(b) <==> GroupKey(a) == GroupKey(b) && a.number == b.number
  {
    if AttemptKey(a) == AttemptKey(b) {
      LastColonSeparates(GroupKey(a), a.number, GroupKey(b), b.number);
    }
  }

  /** When every event belongs to a stored attempt, distinct joins are enough. */
  lemma RowsIdentify(attempts: seq<Attempt>, ledger: seq<Event>, plan: Id)
    requires JoinsDistinct(attempts, plan) && EventsNameRows(attempts, ledger)
    ensures KeysIdentify(attempts, ledger, plan)
  {
    hide GroupKey;
    forall a, e | a in attempts && a.planId == plan && e in ledger && e.planId == plan && Counted(e)
      ensures KeyTells(e, a)
    {
      assert NamesRow(e, attempts);
      var b :| b in attempts && Names(e, b.planId, b.executionId, b.stepId, b.number);
      NamedKey(e, b);
      AttemptKeysSeparate(a, b);
      if Names(e, a.planId, a.executionId, a.stepId, a.number) {
        NamedKey(e, a);
      }
    }
  }

  lemma NamedKey(e: Event, a: Attempt)
    requires Names(e, a.planId, a.executionId, a.stepId, a.number)
    ensures EventKey(e) == AttemptKey(a)
  {
  }

  ghost predicate AttemptEventsNamed(ledger: seq<Event>) {
    forall e :: e in ledger && Counted(e) ==>
      e.executionId.Some? && ColonFree(e.executionId.value) && e.stepId.Some? && e.attemptNumber.Some?
  }

  lemma EventKeyNames(e: Event, a: Attempt)
    requires e.executionId.Some? && ColonFree(e.executionId.value) && e.stepId.Some? && e.attemptNumber.Some?
    requires ColonFree(a.executionId) && e.planId == a.planId
    ensures KeyTells(e, a)
  {
    var x, s, n := e.executionId.value, e.stepId.value, e.attemptNumber.value;
    assert EventKey(e) == x + ":" + (s + ":" + Decimal(n));
    assert AttemptKey(a) == a.executionId + ":" + (a.stepId + ":" + Decimal(a.number));
    if EventKey(e) == AttemptKey(a) {
      FirstColonSeparates(x, s + ":" + Decimal(n), a.executionId, a.stepId + ":" + Decimal(a.number));
      LastColonSeparates(s, n, a.stepId, a.number);
    }
  }

  lemma ColonFreeJoins(attempts: seq<Attempt>, plan: Id)
    requires forall a :: a in attempts ==> ColonFree(a.executionId)
    ensures JoinsDistinct(attempts, plan)
  {
    hide ColonFree;
    forall a, b | a in attempts && b in attempts && GroupKey(a) == GroupKey(b)
      ensures a.executionId == b.executionId && a.stepId == b.stepId
    {
      FirstColonSeparates(a.executionId, a.stepId, b.executionId, b.stepId);
    }
  }

  /** So are colon-free execution ids, whatever else is on record. */
  lemma ColonFreeIdentifies(attempts: seq<Attempt>, ledger: seq<Event>, plan: Id)
    requires forall a :: a in attempts ==> ColonFree(a.executionId)
    requires AttemptEventsNamed(ledger)
    ensures KeysIdentify(attempts, ledger, plan)
  {
    hide ColonFree, GroupKey, KeyTells;
    ColonFreeJoins(attempts, plan);
    forall a, e | a in attempts && a.planId == plan && e in ledger && e.planId == plan && Counted(e)
      ensures KeyTells(e, a)
    {
      EventKeyNames(e, a);
    }
  }

  lemma OneMoreEvent(events: seq<Event>, e: Event)
    ensures StartedIn(events + [e]) == StartedIn(events) + StartedIn([e])
    ensures forall st :: FinalizedIn(events + [e], st) == FinalizedIn(events, st) + FinalizedIn([e], st)
    ensures !e.kind.AttemptStarted? ==> StartedIn([e]) == 0
    ensures !e.kind.AttemptFinalized? ==> forall st :: FinalizedIn([e], st) == 0
  {
    assert Init(events + [e]) == events && Init([e]) == [];
  }

  ghost predicate SameCounts(a: seq<Event>, b: seq<Event>) {
    StartedIn(a) == StartedIn(b) && forall st :: FinalizedIn(a, st) == FinalizedIn(b, st)
  }

  lemma NothingToSelect(events: seq<Event>, key: string)
    requires events == []
    ensures Select(events, EventKey, key) == []
  {
  }

  lemma LastEventSelected(ledger: seq<Event>, plan: Id, key: string)
    requires ledger != []
    ensures var keyed := Select(PlanEvents(Init(ledger), plan), EventKey, key);
      Select(PlanEvents(ledger, plan), EventKey, key)
      == if Last(ledger).planId == plan && EventKey(Last(ledger)) == key then keyed + [Last(ledger)] else keyed
  {
    hide EventKey;
    var events, before := PlanEvents(ledger, plan), PlanEvents(Init(ledger), plan);
    if Last(ledger).planId == plan {
      assert Init(events) == before && Last(events) == Last(ledger);
    } else {
      assert events == before;
    }
  }

  /** One more event in two selections that agree on whether they take it, or of a kind that is not counted. */
  lemma OneMoreKeepsCounts(keyed: seq<Event>, named: seq<Event>, e: Event, taken: bool, wanted: bool)
    requires SameCounts(keyed, named)
    requires e.kind.AttemptStarted? || e.kind.AttemptFinalized? ==> taken == wanted
    ensures SameCounts(if taken then keyed + [e] else keyed, if wanted then named + [e] else named)
  {
    hide StartedIn, FinalizedIn;
    OneMoreEvent(keyed, e);
    OneMoreEvent(named, e);
  }

  lemma SameCountsRefl(events: seq<Event>)
    ensures SameCounts(events, events)
  {
  }

  lemma LastEventNamed(ledger: seq<Event>, a: Attempt)
    requires ledger != []
    ensures var named := EventsOf(Init(ledger), a.planId, a.executionId, a.stepId, a.number);
      EventsOf(ledger, a.planId, a.executionId, a.stepId, a.number)
      == if Names(Last(ledger), a.planId, a.executionId, a.stepId, a.number) then named + [Last(ledger)] else named
  {
  }

  lemma {:induction false} KeyedCountsAreCounts(ledger: seq<Event>, a: Attempt)
    requires forall e :: e in ledger && e.planId == a.planId && Counted(e) ==> KeyTells(e, a)
    ensures SameCounts(Select(PlanEvents(ledger, a.planId), EventKey, AttemptKey(a)),
                       EventsOf(ledger, a.planId, a.executionId, a.stepId, a.number))
  {
    hide EventKey, AttemptKey, Select, StartedIn, FinalizedIn, SameCounts;
    if ledger == [] {
      NothingToSelect(PlanEvents(ledger, a.planId), AttemptKey(a));
      SameCountsRefl([]);
    } else {
      var e := Last(ledger);
      assert ledger == Init(ledger) + [e] && e in ledger;
      KeyedCountsAreCounts(Init(ledger), a);
      LastEventSelected(ledger, a.planId, AttemptKey(a));
      LastEventNamed(ledger, a);
      OneMoreKeepsCounts(Select(PlanEvents(Init(ledger), a.planId), EventKey, AttemptKey(a)),
                         EventsOf(Init(ledger), a.planId, a.executionId, a.stepId, a.number), e,
                         e.planId == a.planId && EventKey(e) == AttemptKey(a),
                         Names(e, a.planId, a.executionId, a.stepId, a.number));
    }
  }

  lemma {:induction false} KeyedRowsAreRows(attempts: seq<Attempt>, plan: Id, execution: Id, step: Id)
    requires forall a :: a in attempts && a.planId == plan && GroupKey(a) == execution + ":" + step ==>
      a.executionId == execution && a.stepId == step
    ensures Select(PlanRows(attempts, plan), GroupKey, execution + ":" + step) == RowsOf(attempts, plan, execution, step)
  {
    if attempts != [] {
      var a := Last(attempts);
      assert attempts == Init(attempts) + [a] && a in attempts;
      KeyedRowsAreRows(Init(attempts), plan, execution, step);
      if a.planId == plan {
        var rows := PlanRows(attempts, plan);
        assert Init(rows) == PlanRows(Init(attempts), plan) && Last(rows) == a;
        var group := Select(Init(rows), GroupKey, execution + ":" + step);
        assert Select(rows, GroupKey, execution + ":" + step) == if OfStep(a, plan, execution, step) then group + [a] else group;
      } else {
        assert PlanRows(attempts, plan) == PlanRows(Init(attempts), plan);
        assert RowsOf(attempts, plan, execution, step) == RowsOf(Init(attempts), plan, execution, step);
      }
    }
  }

  lemma KeyedStepIsStep(attempts: seq<Attempt>, ledger: seq<Event>, a: Attempt)
    requires KeysIdentify(attempts, ledger, a.planId) && a in attempts
    ensures KeyedGroupClean(Select(PlanRows(attempts, a.planId), GroupKey, GroupKey(a)), PlanEvents(ledger, a.planId))
       <==> StepClean(attempts, ledger, a.planId, a.executionId, a.stepId)
  {
    KeyedRowsAreRows(attempts, a.planId, a.executionId, a.stepId);
    forall b | b in RowsOf(attempts, a.planId, a.executionId, a.stepId)
      ensures KeyedClean(b, PlanEvents(ledger, a.planId)) <==> AttemptClean(b, ledger)
    {
      KeyedCountsAreCounts(ledger, b);
    }
  }

  lemma StepWithoutRows(attempts: seq<Attempt>, ledger: seq<Event>, plan: Id, execution: Id, step: Id)
    requires RowsOf(attempts, plan, execution, step) == []
    ensures StepClean(attempts, ledger, plan, execution, step)
  {
    assert NumbersOf([]) == UpTo(0);
  }

  /** Where the joined texts identify, the coded check is the intended one. */
  lemma CheckMeansConsistent(attempts: seq<Attempt>, ledger: seq<Event>, plan: Id)
    requires KeysIdentify(attempts, ledger, plan)
    ensures KeyedConsistent(PlanRows(attempts, plan), PlanEvents(ledger, plan)) <==> PlanConsistent(attempts, ledger, plan)
  {
    var rows, events := PlanRows(attempts, plan), PlanEvents(ledger, plan);
    PlanRowsMembers(attempts, plan);
    hide GroupKey, KeysIdentify, StepClean, KeyedGroupClean;
    if KeyedConsistent(rows, events) {
      forall e, s
        ensures StepClean(attempts, ledger, plan, e, s)
      {
        if RowsOf(attempts, plan, e, s) == [] {
          StepWithoutRows(attempts, ledger, plan, e, s);
        } else {
          var a := RowsOf(attempts, plan, e, s)[0];
          assert a in RowsOf(attempts, plan, e, s);
          assert KeyedGroupClean(Select(rows, GroupKey, GroupKey(a)), events);
          KeyedStepIsStep(attempts, ledger, a);
        }
      }
    }
    if PlanConsistent(attempts, ledger, plan) {
      forall k
        ensures KeyedGroupClean(Select(rows, GroupKey, k), events)
      {
        var group := Select(rows, GroupKey, k);
        if group == [] {
          EmptyGroupClean(events);
        } else {
          var a := group[0];
          assert a in group;
          assert StepClean(attempts, ledger, plan, a.executionId, a.stepId);
          KeyedStepIsStep(attempts, ledger, a);
        }
      }
    }
  }

  // ----- Joins that coincide -----

  lemma NumberTwice(numbers: seq<nat>, i: nat, j: nat)
    requires i < j < |numbers| && numbers[i] == numbers[j]
    ensures multiset(numbers)[numbers[i]] >= 2
  {
    assert numbers == numbers[..j] + numbers[j..];
    assert numbers[i] == numbers[..j][i] && numbers[i] in numbers[..j];
    assert numbers[j..][0] == numbers[j] && numbers[j] in numbers[j..];
  }

  lemma {:induction false} EachOnce(n: nat, x: nat)
    ensures multiset(UpTo(n))[x] == if 1 <= x <= n then 1 else 0
  {
    if n > 0 {
      EachOnce(n - 1, x);
      assert UpTo(n) == UpTo(n - 1) + [n];
    }
  }

  lemma CompleteMeansDistinct(rows: seq<Attempt>, i: nat, j: nat)
    requires CompleteNumbering(rows) && i < j < |rows|
    ensures rows[i].number != rows[j].number
  {
    if rows[i].number == rows[j].number {
      NumberTwice(NumbersOf(rows), i, j);
      EachOnce(|rows|, rows[i].number);
    }
  }

  /** A clean group holds no two attempts with the same number. */
  lemma CleanGroupsNumberOnce(attempts: seq<Attempt>, ledger: seq<Event>, a: Attempt, b: Attempt)
    requires KeyedConsistent(attempts, ledger) && a in attempts && b in attempts
    requires GroupKey(a) == GroupKey(b) && a.number == b.number
    ensures a == b
  {
    var group := Select(attempts, GroupKey, GroupKey(a));
    assert KeyedGroupClean(group, ledger);
    assert a in group && b in group;
    var i :| 0 <= i < |group| && group[i] == a;
    var j :| 0 <= j < |group| && group[j] == b;
    if i < j {
      CompleteMeansDistinct(group, i, j);
    } else if j < i {
      CompleteMeansDistinct(group, j, i);
    }
  }

  ghost predicate PlanNumbered(attempts: seq<Attempt>, plan: Id) {
    forall e, s :: CompleteNumbering(RowsOf(attempts, plan, e, s))
  }

  ghost predicate OneRunning(attempts: seq<Attempt>, plan: Id) {
    forall e, s :: RunningCount(RowsOf(attempts, plan, e, s)) <= 1
  }

  /** Where attempts are numbered properly and every event belongs to one, the check is silent exactly when no joins coincide
      and nothing deserves a complaint. */
  lemma CheckSilentExactly(attempts: seq<Attempt>, ledger: seq<Event>, plan: Id)
    requires PlanNumbered(attempts, plan) && EventsNameRows(attempts, ledger)
    ensures KeyedConsistent(PlanRows(attempts, plan), PlanEvents(ledger, plan))
       <==> JoinsDistinct(attempts, plan) && PlanConsistent(attempts, ledger, plan)
  {
    hide KeyedConsistent, PlanConsistent, PlanNumbered, EventsNameRows, KeysIdentify, GroupKey;
    if KeyedConsistent(PlanRows(attempts, plan), PlanEvents(ledger, plan)) {
      PlanRowsMembers(attempts, plan);
      forall a, b | a in attempts && b in attempts && a.planId == plan && b.planId == plan && GroupKey(a) == GroupKey(b)
        ensures a.executionId == b.executionId && a.stepId == b.stepId
      {
        var x := FirstAttempt(attempts, a);
        var y := FirstAttempt(attempts, b);
        SameStepSameGroup(a, x);
        SameStepSameGroup(b, y);
        CleanGroupsNumberOnce(PlanRows(attempts, plan), PlanEvents(ledger, plan), x, y);
      }
    }
    if JoinsDistinct(attempts, plan) {
      RowsIdentify(attempts, ledger, plan);
      CheckMeansConsistent(attempts, ledger, plan);
    }
  }

  lemma SameStepSameGroup(a: Attempt, b: Attempt)
    requires a.executionId == b.executionId && a.stepId == b.stepId
    ensures GroupKey(a) == GroupKey(b)
  {
  }

  lemma FirstAttempt(attempts: seq<Attempt>, a: Attempt) returns (x: Attempt)
    requires a in attempts && PlanNumbered(attempts, a.planId)
    ensures x in attempts && OfStep(x, a.planId, a.executionId, a.stepId) && x.number == 1
  {
    var rows := RowsOf(attempts, a.planId, a.executionId, a.stepId);
    assert CompleteNumbering(rows);
    assert a in rows;
    EachOnce(|rows|, 1);
    assert multiset(NumbersOf(rows))[1] == 1;
    assert 1 in NumbersOf(rows);
    var i :| 0 <= i < |rows| && NumbersOf(rows)[i] == 1;
    x := rows[i];
  }
}
