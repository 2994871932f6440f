/** Attempt numbers and automatic idempotency keys. */
module AttemptIdentity {
  import opened Common
  import opened ExecutionTables

  // ----- Numbers -----

  /** The attempt numbers of one step in the order the attempts were created. */
  function Numbers(attempts: seq<Attempt>, plan: Id, execution: Id, step: Id): seq<nat> {
    if attempts == [] then []
    else
      var here := if OfStep(Last(attempts), plan, execution, step) then [Last(attempts).number] else [];
      Numbers(Init(attempts), plan, execution, step) + here
  }

  ghost predicate CountsFromOne(numbers: seq<nat>) {
    forall i :: 0 <= i < |numbers| ==> numbers[i] == i + 1
  }

  ghost predicate NumberedInOrder(attempts: seq<Attempt>) {
    forall p, e, s :: CountsFromOne(Numbers(attempts, p, e, s))
  }

  lemma {:induction false} MaxIsCount(attempts: seq<Attempt>, plan: Id, execution: Id, step: Id)
    requires CountsFromOne(Numbers(attempts, plan, execution, step))
    ensures MaxAttempt(attempts, plan, execution, step) == |Numbers(attempts, plan, execution, step)|
  {
    if attempts != [] {
      var before, all := Numbers(Init(attempts), plan, execution, step), Numbers(attempts, plan, execution, step);
      assert forall i :: 0 <= i < |before| ==> before[i] == all[i];
      MaxIsCount(Init(attempts), plan, execution, step);
      if OfStep(Last(attempts), plan, execution, step) {
        assert all[|before|] == Last(attempts).number;
      }
    }
  }

  lemma {:induction false} SameIdentitiesSameNumbers(a: seq<Attempt>, b: seq<Attempt>, plan: Id, execution: Id, step: Id)
    requires |a| == |b|
    requires forall i :: 0 <= i < |a| ==> IsAttempt(b[i], a[i].planId, a[i].executionId, a[i].stepId, a[i].number)
    ensures Numbers(a, plan, execution, step) == Numbers(b, plan, execution, step)
  {
    if a != [] {
      SameIdentitiesSameNumbers(Init(a), Init(b), plan, execution, step);
    }
  }

  /** Updates of existing rows leave identities, classes and keys alone. */
  lemma RowsKeepIdentity(t: Tables, op: Op)
    requires !op.OpCreate?
    ensures |Apply(t, op).attempts| == |t.attempts|
    ensures forall i :: 0 <= i < |t.attempts| ==>
              var a, b := t.attempts[i], Apply(t, op).attempts[i];
              IsAttempt(b, a.planId, a.executionId, a.stepId, a.number)
              && b.sideEffect == a.sideEffect && b.idempotencyKey == a.idempotencyKey
  {
    hide HasRunning, HasAttempt, Blank, IsLocked, SyncLease, ExpiredItems, ResolveExpired, ExpiryEvents;
    match op
    case OpHeartbeat(p, e, s, n, w) =>
      var touched := t.(attempts := TouchRows(t.attempts, p, e, s, n, t.now));
      assert RenewTx(touched, p, e, w).tables.attempts == touched.attempts;
    case OpFinalize(p, e, s, n, status) =>
    case _ =>
  }

  lemma ApplyKeepsNumbering(t: Tables, op: Op)
    requires NumberedInOrder(t.attempts)
    ensures NumberedInOrder(Apply(t, op).attempts)
  {
    if op.OpCreate? {
      CreateKeepsNumbering(t, op);
    } else {
      RowsKeepIdentity(t, op);
      hide Apply, Numbers;
      forall p, e, s
        ensures CountsFromOne(Numbers(Apply(t, op).attempts, p, e, s))
      {
        assert CountsFromOne(Numbers(t.attempts, p, e, s));
        SameIdentitiesSameNumbers(t.attempts, Apply(t, op).attempts, p, e, s);
      }
    }
  }

  lemma CreateKeepsNumbering(t: Tables, op: Op)
    requires NumberedInOrder(t.attempts) && op.OpCreate?
    ensures NumberedInOrder(Apply(t, op).attempts)
  {
    hide Blank, KeyTaken, ResolveKey, NumberedInOrder, MaxAttempt;
    var made := CreateAttempt(t, op.plan, op.execution, op.step, op.effect, op.key, op.worker);
    if made.result.Ok? {
      NextIsNumbered(t.attempts, made.result.value);
    }
  }

  lemma NextIsNumbered(attempts: seq<Attempt>, a: Attempt)
    requires NumberedInOrder(attempts) && a.number == MaxAttempt(attempts, a.planId, a.executionId, a.stepId) + 1
    ensures NumberedInOrder(attempts + [a])
  {
    hide MaxAttempt;
    assert Init(attempts + [a]) == attempts && Last(attempts + [a]) == a;
    forall p, e, s
      ensures CountsFromOne(Numbers(attempts + [a], p, e, s))
    {
      assert CountsFromOne(Numbers(attempts, p, e, s));
      MaxIsCount(attempts, p, e, s);
    }
  }

  /** Under any interleaving of any workers, the attempts of a step are numbered 1, 2, ..., n as they are created. */
  lemma {:induction false} AttemptsAreNumberedInOrder(t: Tables, ops: seq<Op>)
    requires NumberedInOrder(t.attempts)
    ensures NumberedInOrder(Run(t, ops).attempts)
  {
    if ops != [] {
      AttemptsAreNumberedInOrder(t, Init(ops));
      ApplyKeepsNumbering(Run(t, Init(ops)), Last(ops));
    }
  }

  /** Numbering in order makes (plan, execution, step, number) a key of the table. */
  lemma {:induction false} NumbersIdentify(attempts: seq<Attempt>, i: nat, j: nat)
    requires NumberedInOrder(attempts) && i < j < |attempts|
    requires OfStep(attempts[j], attempts[i].planId, attempts[i].executionId, attempts[i].stepId)
    ensures attempts[i].number < attempts[j].number
    decreases |attempts|
  {
    var a := attempts[i];
    var upTo := attempts[..j + 1];
    PrefixIsNumbered(attempts, j + 1, a.planId, a.executionId, a.stepId);
    var numbers := Numbers(upTo, a.planId, a.executionId, a.stepId);
    assert Init(upTo) == attempts[..j] && Last(upTo) == attempts[j];
    var before := Numbers(Init(upTo), a.planId, a.executionId, a.stepId);
    assert numbers == before + [attempts[j].number];
    assert forall k :: 0 <= k < |before| ==> before[k] == numbers[k];
    MaxIsCount(Init(upTo), a.planId, a.executionId, a.stepId);
    assert attempts[..j][i] == a;
    assert a in Init(upTo);
    assert attempts[j].number == numbers[|before|] == |before| + 1;
  }

  lemma {:induction false} PrefixIsNumbered(attempts: seq<Attempt>, k: nat, plan: Id, execution: Id, step: Id)
    requires k <= |attempts| && CountsFromOne(Numbers(attempts, plan, execution, step))
    ensures CountsFromOne(Numbers(attempts[..k], plan, execution, step))
    decreases |attempts| - k
  {
    if k < |attempts| {
      PrefixIsNumbered(attempts, k + 1, plan, execution, step);
      assert Init(attempts[..k + 1]) == attempts[..k];
      var before, all := Numbers(attempts[..k], plan, execution, step), Numbers(attempts[..k + 1], plan, execution, step);
      assert forall i :: 0 <= i < |before| ==> before[i] == all[i];
    } else {
      assert attempts[..k] == attempts;
    }
  }

  // ----- Idempotency keys -----

  lemma NoColonAfter(a: string, m: nat, k: nat)
    requires |a| < k < |a + ":" + Decimal(m)|
    ensures (a + ":" + Decimal(m))[k] != ':'
  {
    assert (a + ":" + Decimal(m))[k] == Decimal(m)[k - |a| - 1];
    assert Decimal(m)[k - |a| - 1] in Decimal(m);
  }

  /** Digits hold no colon, so the last colon of a key separates the number from the rest. */
  lemma LastColonSeparates(a: string, m: nat, b: string, n: nat)
    requires a + ":" + Decimal(m) == b + ":" + Decimal(n)
    ensures a == b && m == n
  {
    var key := a + ":" + Decimal(m);
    assert key[|a|] == ':' && (b + ":" + Decimal(n))[|b|] == ':';
    if |a| < |b| {
      NoColonAfter(a, m, |b|);
      assert false;
    } else if |b| < |a| {
      NoColonAfter(b, n, |a|);
      assert false;
    } else {
      assert a == key[..|a|] == b;
      assert Decimal(m) == key[|a| + 1..] == Decimal(n);
      DecimalInjective(m, n);
    }
  }

  predicate ColonFree(s: string) {
    ':' !in s
  }

  /** A colon-free first part is separated by the first colon. */
  lemma FirstColonSeparates(a: string, x: string, b: string, y: string)
    requires ColonFree(a) && ColonFree(b) && a + ":" + x == b + ":" + y
    ensures a == b && x == y
  {
    var key := a + ":" + x;
    assert key[|a|] == ':' && (b + ":" + y)[|b|] == ':';
    if |a| < |b| {
      assert false;
    } else if |b| < |a| {
      assert false;
    } else {
      assert a == key[..|a|] == b;
      assert x == key[|a| + 1..] == y;
    }
  }

  lemma AutoKeyShape(plan: Id, execution: Id, step: Id, number: nat)
    ensures AutoKey(plan, execution, step, number) == (plan + ":" + execution + ":" + step) + ":" + Decimal(number)
    ensures AutoKey(plan, execution, step, number) == plan + ":" + (execution + ":" + (step + ":" + Decimal(number)))
    ensures plan + ":" + execution + ":" + step == (plan + ":" + execution + ":") + step
  {
    assert plan + ":" + execution + ":" + step + ":" + Decimal(number)
        == plan + (":" + (execution + (":" + (step + (":" + Decimal(number))))));
  }

  /** Within one execution an automatic key determines the step and the number, colons in step ids included. */
  lemma AutoKeysOfOneExecution(plan: Id, execution: Id, s: Id, m: nat, r: Id, n: nat)
    requires AutoKey(plan, execution, s, m) == AutoKey(plan, execution, r, n)
    ensures s == r && m == n
  {
    AutoKeyShape(plan, execution, s, m);
    AutoKeyShape(plan, execution, r, n);
    var prefix := plan + ":" + execution + ":";
    LastColonSeparates(prefix + s, m, prefix + r, n);
    assert s == (prefix + s)[|prefix|..] && r == (prefix + r)[|prefix|..];
  }

  /** Across executions the same holds when plan and execution ids are free of colons. */
  lemma AutoKeysWithoutColons(p: Id, e: Id, s: Id, m: nat, q: Id, f: Id, r: Id, n: nat)
    requires ColonFree(p) && ColonFree(e) && ColonFree(q) && ColonFree(f)
    requires AutoKey(p, e, s, m) == AutoKey(q, f, r, n)
    ensures p == q && e == f && s == r && m == n
  {
    AutoKeyShape(p, e, s, m);
    AutoKeyShape(q, f, r, n);
    FirstColonSeparates(p, e + ":" + (s + ":" + Decimal(m)), q, f + ":" + (r + ":" + Decimal(n)));
    FirstColonSeparates(e, s + ":" + Decimal(m), f, r + ":" + Decimal(n));
    LastColonSeparates(s, m, r, n);
  }

  /** Only external writes carry a key, and it is the automatic one: the engine passes no key of its own. */
  ghost predicate KeysAreAutomatic(attempts: seq<Attempt>) {
    forall a :: a in attempts ==> HasAutomaticKey(a)
  }

  ghost predicate HasAutomaticKey(a: Attempt) {
    a.idempotencyKey ==
      if a.sideEffect.ExternalWrite? then Some(AutoKey(a.planId, a.executionId, a.stepId, a.number)) else None
  }

  lemma ApplyKeepsKeysAutomatic(t: Tables, op: Op)
    requires KeysAreAutomatic(t.attempts) && (op.OpCreate? ==> op.key.None?)
    ensures KeysAreAutomatic(Apply(t, op).attempts)
  {
    var after := Apply(t, op).attempts;
    if !op.OpCreate? {
      RowsKeepIdentity(t, op);
      forall a | a in after
        ensures HasAutomaticKey(a)
      {
        var i :| 0 <= i < |after| && after[i] == a;
        assert HasAutomaticKey(t.attempts[i]);
      }
    }
  }

  lemma {:induction false} KeysStayAutomatic(t: Tables, ops: seq<Op>)
    requires KeysAreAutomatic(t.attempts)
    requires forall i :: 0 <= i < |ops| ==> ops[i].OpCreate? ==> ops[i].key.None?
    ensures KeysAreAutomatic(Run(t, ops).attempts)
  {
    if ops != [] {
      KeysStayAutomatic(t, Init(ops));
      ApplyKeepsKeysAutomatic(Run(t, Init(ops)), Last(ops));
    }
  }

  /** Two external-write attempts of one execution never share an automatic key. */
  lemma ExternalWritesDiffer(t: Tables, ops: seq<Op>, i: nat, j: nat)
    requires NumberedInOrder(t.attempts) && KeysAreAutomatic(t.attempts)
    requires forall k :: 0 <= k < |ops| ==> ops[k].OpCreate? ==> ops[k].key.None?
    requires i < j < |Run(t, ops).attempts|
    requires var a, b := Run(t, ops).attempts[i], Run(t, ops).attempts[j];
      && a.planId == b.planId && a.executionId == b.executionId
      && a.sideEffect.ExternalWrite? && b.sideEffect.ExternalWrite?
    ensures Run(t, ops).attempts[i].idempotencyKey != Run(t, ops).attempts[j].idempotencyKey
  {
    AttemptsAreNumberedInOrder(t, ops);
    KeysStayAutomatic(t, ops);
    var a, b := Run(t, ops).attempts[i], Run(t, ops).attempts[j];
    assert HasAutomaticKey(a) && HasAutomaticKey(b);
    if a.idempotencyKey == b.idempotencyKey {
      AutoKeysOfOneExecution(a.planId, a.executionId, a.stepId, a.number, b.stepId, b.number);
      NumbersIdentify(Run(t, ops).attempts, i, j);
    }
  }

  /** Everything of an automatic key but the number. */
  function JoinedIds(plan: Id, execution: Id, step: Id): string {
    plan + ":" + execution + ":" + step
  }

  /** Automatic keys coincide exactly when the joined ids and the numbers do. */
  lemma AutoKeysCoincideExactly(p: Id, e: Id, s: Id, m: nat, q: Id, f: Id, r: Id, n: nat)
    ensures AutoKey(p, e, s, m) == AutoKey(q, f, r, n) <==> JoinedIds(p, e, s) == JoinedIds(q, f, r) && m == n
  {
    AutoKeyShape(p, e, s, m);
    AutoKeyShape(q, f, r, n);
    if AutoKey(p, e, s, m) == AutoKey(q, f, r, n) {
      LastColonSeparates(JoinedIds(p, e, s), m, JoinedIds(q, f, r), n);
    }
  }

  /** An external write is stored under the same joined ids with the number the next attempt of the step would get. */
  predicate KeyClash(t: Tables, plan: Id, execution: Id, step: Id) {
    exists b :: b in t.attempts && b.sideEffect.ExternalWrite?
             && JoinedIds(b.planId, b.executionId, b.stepId) == JoinedIds(plan, execution, step)
             && b.number == MaxAttempt(t.attempts, plan, execution, step) + 1
  }

  /** The uniqueness constraint refuses an attempt without a key of its own exactly when it is an external write and such
      a clash exists. */
  lemma CreateRefusedExactly(t: Tables, plan: Id, execution: Id, step: Id, effect: SideEffect, worker: Id)
    requires KeysAreAutomatic(t.attempts) && !Blank(plan) && !Blank(execution) && !Blank(step)
    ensures var r := CreateAttempt(t, plan, execution, step, effect, None, worker).result;
      && (r.Err? <==> effect.ExternalWrite? && KeyClash(t, plan, execution, step))
      && (r.Err? ==> r == Err(DbWriteFailed))
  {
    hide AutoKey, Blank, JoinedIds;
    var a := NewAttempt(t, plan, execution, step, effect, None, worker);
    if effect.ExternalWrite? {
      forall b | b in t.attempts
        ensures b.idempotencyKey == a.idempotencyKey <==>
                && b.sideEffect.ExternalWrite? && b.number == a.number
                && JoinedIds(b.planId, b.executionId, b.stepId) == JoinedIds(plan, execution, step)
      {
        assert HasAutomaticKey(b);
        AutoKeysCoincideExactly(b.planId, b.executionId, b.stepId, b.number, plan, execution, step, a.number);
      }
    }
  }

  ghost predicate IdsColonFree(attempts: seq<Attempt>) {
    forall a :: a in attempts ==> ColonFree(a.planId) && ColonFree(a.executionId)
  }

  /** With colon-free plan and execution ids there is no clash, so no attempt is refused. */
  lemma CreateNeverCollides(t: Tables, plan: Id, execution: Id, step: Id, effect: SideEffect, worker: Id)
    requires KeysAreAutomatic(t.attempts) && IdsColonFree(t.attempts)
    requires !Blank(plan) && !Blank(execution) && !Blank(step) && ColonFree(plan) && ColonFree(execution)
    ensures CreateAttempt(t, plan, execution, step, effect, None, worker).result.Ok?
  {
    hide AutoKey, Blank, JoinedIds, ColonFree, CreateAttempt;
    CreateRefusedExactly(t, plan, execution, step, effect, worker);
    if KeyClash(t, plan, execution, step) {
      var b :| b in t.attempts && b.sideEffect.ExternalWrite?
               && JoinedIds(b.planId, b.executionId, b.stepId) == JoinedIds(plan, execution, step)
               && b.number == MaxAttempt(t.attempts, plan, execution, step) + 1;
      AutoKeysCoincideExactly(b.planId, b.executionId, b.stepId, b.number, plan, execution, step, b.number);
      AutoKeysWithoutColons(b.planId, b.executionId, b.stepId, b.number, plan, execution, step, b.number);
      assert false;
    }
  }

  lemma KeysMoveTheColon(p: string, q: string, e: string, s: string, n: nat)
    ensures AutoKey(p + ":" + q, e, s, n) == AutoKey(p, q + ":" + e, s, n)
  {
    var joined := (p + ":" + q) + ":" + e;
    assert joined == p + ":" + (q + ":" + e);
    assert AutoKey(p + ":" + q, e, s, n) == joined + ":" + s + ":" + Decimal(n);
    assert AutoKey(p, q + ":" + e, s, n) == joined + ":" + s + ":" + Decimal(n);
  }

  lemma ColonIsNotBlank(a: string, b: string)
    ensures !Blank(a + ":" + b)
  {
    assert (a + ":" + b)[|a|] == ':' && (a + ":" + b)[|a|] in a + ":" + b;
  }

  /** With colons in the ids it can: plan `p:q` with execution `e` and plan `p` with execution `q:e` share a key, and the
      second attempt is refused. */
  lemma CollisionAcrossExecutions(p: Id, q: Id, e: Id, s: Id)
    requires !Blank(p) && !Blank(e) && !Blank(s)
    ensures var t := Apply(Empty, OpCreate(p + ":" + q, e, s, ExternalWrite, None, "w"));
      |t.attempts| == 1
      && CreateAttempt(t, p, q + ":" + e, s, ExternalWrite, None, "w").result == Err(DbWriteFailed)
  {
    ColonIsNotBlank(p, q);
    ColonIsNotBlank(q, e);
    var t := Apply(Empty, OpCreate(p + ":" + q, e, s, ExternalWrite, None, "w"));
    var first, second := t.attempts[0], NewAttempt(t, p, q + ":" + e, s, ExternalWrite, None, "w");
    hide AutoKey, Blank;
    assert |p + ":" + q| != |p|;
    assert Init(t.attempts) == [];
    assert first.number == 1 && second.number == 1;
    KeysMoveTheColon(p, q, e, s, 1);
    assert first in t.attempts && first.idempotencyKey == second.idempotencyKey;
  }
}
