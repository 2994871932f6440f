/** The learning-pattern limiter and promotion rules of services/learningAdvisory.js. */
module Learning {
  import opened Common

  const MINIMUM_EVIDENCE_COUNT: nat := 3
  const MAX_PATTERNS_PER_HOUR: nat := 10
  const OSCILLATION_THRESHOLD: nat := 3
  const HOUR_MS: nat := 3600000

  datatype Verdict = Positive | Negative | Neutral

  datatype LearningEvent = LearningEvent(reasonCode: string, reviewMode: string, outcome: string, timestamp: nat)

  datatype Candidate = Candidate(
    signature: string, scope: string, reviewMode: string, evidence: nat, positive: nat, negative: nat, lastSeenAt: nat)

  datatype Validation = Validated | Unsettled | Conflicting

  datatype Mode = Shadow | Active

  datatype Pattern = Pattern(
    id: string, signature: string, scope: string, mode: Mode, validation: Validation, confidence: real,
    evidence: nat, contradictions: nat, lastSeenAt: nat, createdAt: nat)

  datatype Approval = Approval(patternId: string, approvedBy: string, approvedAt: nat)

  // ----- Grouping events into candidates -----

  function Sign(e: LearningEvent): Verdict {
    if e.outcome in {"executed", "confirmed", "accepted", "approved", "simulated"} then Positive
    else if e.outcome in {"blocked", "failed", "dismissed", "rejected", "timeout"} then Negative
    else Neutral
  }

  function Or(a: string, b: string): string {
    if a != "" then a else b
  }

  function Scope(e: LearningEvent): string {
    Or(e.reasonCode, "UNKNOWN")
  }

  function ReviewMode(e: LearningEvent): string {
    Or(e.reviewMode, "minimal")
  }

  function Signature(e: LearningEvent): string {
    Scope(e) + "::" + ReviewMode(e)
  }

  function Of(events: seq<LearningEvent>, signature: string): (r: seq<LearningEvent>)
    ensures forall e :: e in r <==> e in events && Signature(e) == signature
  {
    if events == [] then []
    else
      assert events == Init(events) + [Last(events)];
      if Signature(Last(events)) == signature then Of(Init(events), signature) + [Last(events)] else Of(Init(events), signature)
  }

  function Count(events: seq<LearningEvent>, verdict: Verdict): (n: nat)
    ensures n <= |events|
  {
    if events == [] then 0
    else Count(Init(events), verdict) + if Sign(Last(events)) == verdict then 1 else 0
  }

  function Latest(events: seq<LearningEvent>): (t: nat)
    ensures forall e :: e in events ==> e.timestamp <= t
    ensures events != [] ==> exists e :: e in events && e.timestamp == t
  {
    if events == [] then 0
    else
      assert events == Init(events) + [Last(events)];
      var before := Latest(Init(events));
      if |events| == 1 || Last(events).timestamp > before then Last(events).timestamp else before
  }

  /** What a group of events comes to; scope and mode are those of its first event. */
  function Summary(events: seq<LearningEvent>): Candidate
    requires events != []
  {
    Candidate(Signature(events[0]), Scope(events[0]), ReviewMode(events[0]),
              |events|, Count(events, Positive), Count(events, Negative), Latest(events))
  }

  lemma SummaryGrows(events: seq<LearningEvent>, e: LearningEvent)
    requires events != []
    ensures var s := Summary(events);
      Summary(events + [e]) == s.(
        evidence := s.evidence + 1,
        positive := s.positive + if Sign(e).Positive? then 1 else 0,
        negative := s.negative + if Sign(e).Negative? then 1 else 0,
        lastSeenAt := if e.timestamp > s.lastSeenAt then e.timestamp else s.lastSeenAt)
  {
    assert Init(events + [e]) == events;
  }

  lemma OfNext(events: seq<LearningEvent>, k: nat, g: string)
    requires k < |events|
    ensures Of(events[..k + 1], g) == if Signature(events[k]) == g then Of(events[..k], g) + [events[k]] else Of(events[..k], g)
  {
    assert Init(events[..k + 1]) == events[..k];
  }

  lemma SummaryOfOne(e: LearningEvent)
    ensures Summary([e]) == Candidate(Signature(e), Scope(e), ReviewMode(e), 1,
      if Sign(e).Positive? then 1 else 0, if Sign(e).Negative? then 1 else 0, e.timestamp)
  {
    assert Init([e]) == [];
  }

  /** One candidate per signature, summing up exactly the events that carry it. */
  method GroupEvents(events: seq<LearningEvent>) returns (order: seq<string>, groups: map<string, Candidate>)
    ensures Distinct(order) && forall g :: g in order <==> g in groups
    ensures forall g :: g in groups <==> Of(events, g) != []
    ensures forall g :: g in groups ==> groups[g] == Summary(Of(events, g))
  {
    hide Of, Summary, Signature, Sign, Scope, ReviewMode;
    order, groups := [], map[];
    assert forall g :: Of([], g) == [] by {
      forall g ensures Of([], g) == [] { NothingOf(g); }
    }
    for k := 0 to |events|
      invariant Distinct(order) && forall g :: g in order <==> g in groups
      invariant forall g :: g in groups <==> Of(events[..k], g) != []
      invariant forall g :: g in groups ==> groups[g] == Summary(Of(events[..k], g))
    {
      forall g
        ensures Of(events[..k + 1], g) == if Signature(events[k]) == g then Of(events[..k], g) + [events[k]] else Of(events[..k], g)
      {
        OfNext(events, k, g);
      }
      var e := events[k];
      var g := Signature(e);
      if g in groups {
        SummaryGrows(Of(events[..k], g), e);
        var existing := groups[g];
        existing := existing.(evidence := existing.evidence + 1);
        if Sign(e).Positive? {
          existing := existing.(positive := existing.positive + 1);
        }
        if Sign(e).Negative? {
          existing := existing.(negative := existing.negative + 1);
        }
        if e.timestamp > existing.lastSeenAt {
          existing := existing.(lastSeenAt := e.timestamp);
        }
        groups := groups[g := existing];
      } else {
        assert Of(events[..k], g) == [] && Of(events[..k + 1], g) == [e];
        SummaryOfOne(e);
        var positive := if Sign(e).Positive? then 1 else 0;
        var negative := if Sign(e).Negative? then 1 else 0;
        order := order + [g];
        groups := groups[g := Candidate(g, Scope(e), ReviewMode(e), 1, positive, negative, e.timestamp)];
      }
    }
    assert events[..|events|] == events;
  }

  lemma NothingOf(g: string)
    ensures Of([], g) == []
  {
  }

  // ----- Classification -----

  function Classify(positive: nat, negative: nat): (Validation, nat) {
    if positive > 0 && negative > 0 then (Conflicting, positive + negative)
    else (if positive + negative >= MINIMUM_EVIDENCE_COUNT then Validated else Unsettled, 0)
  }

  function Confidence(evidence: nat, validation: Validation): real {
    var full := if evidence >= MINIMUM_EVIDENCE_COUNT then 1.0 else evidence as real / MINIMUM_EVIDENCE_COUNT as real;
    if validation.Conflicting? then full * 0.5 else full
  }

  /** A validated pattern rests on enough evidence of one sign and has full confidence; a conflicting one never more than half. */
  lemma ClassificationMeans(events: seq<LearningEvent>)
    requires events != []
    ensures var c := Summary(events); var v := Classify(c.positive, c.negative);
      && (v.0.Validated? <==> c.positive + c.negative >= MINIMUM_EVIDENCE_COUNT && (c.positive == 0 || c.negative == 0))
      && (v.0.Conflicting? <==> exists p, n :: p in events && n in events && Sign(p).Positive? && Sign(n).Negative?)
      && v.1 == (if v.0.Conflicting? then c.positive + c.negative else 0) && c.evidence == |events|
      && 0.0 < Confidence(c.evidence, v.0) <= (if v.0.Conflicting? then 0.5 else 1.0)
      && (v.0.Validated? ==> Confidence(c.evidence, v.0) == 1.0)
      && (|events| < MINIMUM_EVIDENCE_COUNT ==>
            Confidence(c.evidence, v.0) * MINIMUM_EVIDENCE_COUNT as real == |events| as real * (if v.0.Conflicting? then 0.5 else 1.0))
      && (|events| >= MINIMUM_EVIDENCE_COUNT ==> Confidence(c.evidence, v.0) == if v.0.Conflicting? then 0.5 else 1.0)
  {
    SomeCounted(events, Positive);
    SomeCounted(events, Negative);
    OneSignEach(events);
  }

  lemma {:induction false} SomeCounted(events: seq<LearningEvent>, verdict: Verdict)
    ensures Count(events, verdict) > 0 <==> exists e :: e in events && Sign(e) == verdict
  {
    if events != [] {
      assert events == Init(events) + [Last(events)];
      SomeCounted(Init(events), verdict);
      assert Last(events) in events;
    }
  }

  lemma {:induction false} OneSignEach(events: seq<LearningEvent>)
    ensures Count(events, Positive) + Count(events, Negative) <= |events|
  {
    if events != [] {
      OneSignEach(Init(events));
    }
  }

  /** An outcome that was carried through and one that was turned down contradict each other; any other says nothing. */
  lemma OppositeOutcomesConflict(events: seq<LearningEvent>, p: LearningEvent, n: LearningEvent)
    requires p in events && n in events
    requires p.outcome in {"executed", "confirmed", "accepted", "approved", "simulated"}
    requires n.outcome in {"blocked", "failed", "dismissed", "rejected", "timeout"}
    ensures var c := Summary(events); Classify(c.positive, c.negative).0.Conflicting?
  {
    assert Sign(p).Positive? && Sign(n).Negative?;
    SomeCounted(events, Positive);
    SomeCounted(events, Negative);
    hide Sign;
  }

  lemma OtherOutcomesSayNothing(e: LearningEvent)
    requires e.outcome !in {"executed", "confirmed", "accepted", "approved", "simulated", "blocked", "failed", "dismissed", "rejected", "timeout"}
    ensures Summary([e]).positive == Summary([e]).negative == 0
  {
    assert Init([e]) == [];
  }

  // ----- Signatures -----

  predicate NoColon(s: string) {
    forall c :: c in s ==> c != ':'
  }

  /** Where no reason code holds a colon, the events of one candidate agree in reason code and review mode. */
  lemma SignatureTellsApart(e: LearningEvent, f: LearningEvent)
    requires NoColon(e.reasonCode) && NoColon(f.reasonCode) && Signature(e) == Signature(f)
    ensures Scope(e) == Scope(f) && ReviewMode(e) == ReviewMode(f)
  {
    var a, b := Scope(e), Scope(f);
    assert NoColon("UNKNOWN");
    assert NoColon(a) && NoColon(b);
    hide Scope, ReviewMode;
    assert Signature(e)[|a|] == ':' && Signature(f)[|b|] == ':';
    assert forall i :: 0 <= i < |a| ==> Signature(e)[i] == a[i] && a[i] in a;
    assert forall i :: 0 <= i < |b| ==> Signature(f)[i] == b[i] && b[i] in b;
    assert |a| == |b|;
    assert a == Signature(e)[..|a|] && b == Signature(f)[..|b|];
    assert ReviewMode(e) == Signature(e)[|a| + 2..] && ReviewMode(f) == Signature(f)[|b| + 2..];
  }

  /** Events that give neither a reason nor a mode are counted together, under a name of their own. */
  lemma NamelessEventsAreOneGroup(e: LearningEvent, events: seq<LearningEvent>)
    requires e in events && e.reasonCode == "" && e.reviewMode == ""
    ensures e in Of(events, "UNKNOWN::minimal")
  {
    assert Signature(e) == "UNKNOWN::minimal";
  }

  /** With colons two different kinds of events can be counted as one. */
  lemma SignaturesCanCoincide(x: string, y: string, z: string, outcome: string, at: nat)
    requires x != "" && y != "" && z != ""
    ensures var e, f := LearningEvent(x + "::" + y, z, outcome, at), LearningEvent(x, y + "::" + z, outcome, at);
      Signature(e) == Signature(f) && Scope(e) != Scope(f)
  {
    assert (x + "::" + y) + "::" + z == x + "::" + (y + "::" + z);
    assert |x + "::" + y| > |x|;
  }

  // ----- Detection -----

  predicate Known(patterns: seq<Pattern>, signature: string) {
    exists p :: p in patterns && p.signature == signature
  }

  function Refreshed(p: Pattern, c: Candidate): Pattern {
    var v := Classify(c.positive, c.negative);
    p.(scope := c.scope, confidence := Confidence(c.evidence, v.0), validation := v.0, evidence := c.evidence,
       contradictions := v.1, lastSeenAt := c.lastSeenAt)
  }

  function Created(id: string, c: Candidate, now: nat): Pattern {
    Refreshed(Pattern(id, c.signature, c.scope, Shadow, Unsettled, 0.0, 0, 0, 0, now), c)
  }

  function RefreshAll(patterns: seq<Pattern>, c: Candidate): (r: seq<Pattern>)
    ensures |r| == |patterns|
  {
    seq(|patterns|, i requires 0 <= i < |patterns| =>
      if patterns[i].signature == c.signature then Refreshed(patterns[i], c) else patterns[i])
  }

  /** `createdAt >= since`. */
  function CreatedSince(patterns: seq<Pattern>, since: int): nat {
    if patterns == [] then 0
    else CreatedSince(Init(patterns), since) + if Last(patterns).createdAt >= since then 1 else 0
  }

  lemma {:induction false} CreatedSinceCounts(patterns: seq<Pattern>, since: int)
    ensures CreatedSince(patterns, since) == |set i | 0 <= i < |patterns| && patterns[i].createdAt >= since|
  {
    var counted := set i | 0 <= i < |patterns| && patterns[i].createdAt >= since;
    if patterns == [] {
      assert counted == {};
    } else {
      var k := |patterns| - 1;
      CreatedSinceCounts(Init(patterns), since);
      var before := set i | 0 <= i < |Init(patterns)| && Init(patterns)[i].createdAt >= since;
      assert counted == if patterns[k].createdAt >= since then before + {k} else before;
    }
  }

  /** What creating a pattern needs beside the candidate: an id and the clock reading at that moment. */
  datatype Stamp = Stamp(id: string, at: nat)

  /** The patterns after the candidates, and how many were created; only known signatures pass a full window. */
  function Detect(patterns: seq<Pattern>, candidates: seq<Candidate>, stamps: seq<Stamp>, inWindow: nat): (r: (seq<Pattern>, nat))
    requires |stamps| == |candidates|
  {
    if candidates == [] then (patterns, 0)
    else
      var before := Detect(patterns, Init(candidates), Init(stamps), inWindow);
      var c, stamp := Last(candidates), Last(stamps);
      if Known(before.0, c.signature) then (RefreshAll(before.0, c), before.1)
      else if inWindow + before.1 >= MAX_PATTERNS_PER_HOUR then before
      else (before.0 + [Created(stamp.id, c, stamp.at)], before.1 + 1)
  }

  function Ordered(order: seq<string>, groups: map<string, Candidate>): (r: seq<Candidate>)
    requires forall g :: g in order ==> g in groups
    ensures |r| == |order|
  {
    seq(|order|, i requires 0 <= i < |order| => groups[order[i]])
  }

  // ----- Approval and promotion -----

  predicate Approved(approvals: seq<Approval>, id: string) {
    exists a :: a in approvals && a.patternId == id
  }

  predicate Promotable(p: Pattern) {
    p.evidence >= MINIMUM_EVIDENCE_COUNT && p.contradictions < OSCILLATION_THRESHOLD && !p.validation.Conflicting?
  }

  function FindPattern(patterns: seq<Pattern>, id: string): (r: Option<Pattern>)
    ensures r.Some? ==> r.value in patterns && r.value.id == id
    ensures r.None? ==> forall p :: p in patterns ==> p.id != id
  {
    if patterns == [] then None else if patterns[0].id == id then Some(patterns[0]) else FindPattern(patterns[1..], id)
  }

  function Activate(patterns: seq<Pattern>, id: string): (r: seq<Pattern>)
    ensures |r| == |patterns|
  {
    seq(|patterns|, i requires 0 <= i < |patterns| =>
      if patterns[i].id == id then patterns[i].(mode := Active) else patterns[i])
  }

  datatype Book = Book(patterns: seq<Pattern>, approvals: seq<Approval>)

  function Approve(b: Book, id: string, operator: string, now: nat): Book {
    if FindPattern(b.patterns, id).None? then b
    else b.(approvals := b.approvals + [Approval(id, Or(operator, "operator"), now)])
  }

  /** The approval that a promotion adds is committed even when the promotion is then refused. */
  function Promote(b: Book, id: string, operator: string, now: nat): (r: (Book, bool)) {
    var found := FindPattern(b.patterns, id);
    if found.None? then (b, false)
    else
      var approved := if Approved(b.approvals, id) then b else Approve(b, id, operator, now);
      if !Promotable(found.value) then (approved, false)
      else (approved.(patterns := Activate(approved.patterns, id)), true)
  }

  // ----- The store -----

  class PatternStore {
    var patterns: seq<Pattern>
    var approvals: seq<Approval>

    ghost function View(): Book
      reads this
    {
      Book(patterns, approvals)
    }

    constructor ()
      ensures View() == Book([], [])
    {
      patterns, approvals := [], [];
    }

    method CountRecentPatternCreations(now: nat) returns (n: nat)
      ensures n == CreatedSince(patterns, now - HOUR_MS)
      ensures n == |set i | 0 <= i < |patterns| && now - patterns[i].createdAt <= HOUR_MS|
    {
      n := 0;
      for k := 0 to |patterns|
        invariant n == CreatedSince(patterns[..k], now - HOUR_MS)
      {
        assert Init(patterns[..k + 1]) == patterns[..k];
        if patterns[k].createdAt >= now - HOUR_MS {
          n := n + 1;
        }
      }
      assert patterns[..|patterns|] == patterns;
      CreatedSinceCounts(patterns, now - HOUR_MS);
      assert (set i | 0 <= i < |patterns| && patterns[i].createdAt >= now - HOUR_MS)
          == (set i | 0 <= i < |patterns| && now - patterns[i].createdAt <= HOUR_MS);
    }

    /** `stamps` supplies, for each group in order, a fresh id and the clock when that group is handled. */
    method UpsertDetectedPatterns(events: seq<LearningEvent>, now: nat, stamps: seq<Stamp>)
      returns (order: seq<string>, groups: map<string, Candidate>)
      requires |stamps| == |events|
      modifies `patterns
      ensures Distinct(order) && (forall g :: g in order <==> g in groups) && |order| <= |stamps|
      ensures forall g :: g in groups <==> Of(events, g) != []
      ensures forall g :: g in groups ==> groups[g] == Summary(Of(events, g))
      ensures patterns == Detect(old(patterns), Ordered(order, groups), stamps[..|order|], CreatedSince(old(patterns), now - HOUR_MS)).0
      ensures |old(patterns)| <= |patterns|
              && DetectedSoFar(old(patterns), Ordered(order, groups), (patterns, |patterns| - |old(patterns)|),
                               CreatedSince(old(patterns), now - HOUR_MS))
    {
      hide DetectedSoFar, DistinctSignatures, Of, Summary, Signature, CreatedSince, Known, RefreshAll, Created;
      order, groups := GroupEvents(events);
      SignaturesFit(events, order);
      var createdInWindow := CountRecentPatternCreations(now);
      var createdThisRun := 0;
      ghost var candidates, before := Ordered(order, groups), patterns;
      for k := 0 to |order|
        invariant (patterns, createdThisRun) == Detect(before, candidates[..k], stamps[..k], createdInWindow)
      {
        assert Init(candidates[..k + 1]) == candidates[..k] && Init(stamps[..k + 1]) == stamps[..k];
        var candidate := groups[order[k]];
        var existing := Known(patterns, candidate.signature);
        if !existing && createdInWindow + createdThisRun >= MAX_PATTERNS_PER_HOUR {
          continue;
        }
        if existing {
          patterns := RefreshAll(patterns, candidate);
        } else {
          patterns := patterns + [Created(stamps[k].id, candidate, stamps[k].at)];
          createdThisRun := createdThisRun + 1;
        }
      }
      assert candidates[..|order|] == candidates;
      GroupsKeepTheirSignatures(events, order, groups);
      DetectsExactly(before, candidates, stamps[..|order|], createdInWindow);
      CountsTheNew(before, candidates, Detect(before, candidates, stamps[..|order|], createdInWindow), createdInWindow);
    }

    method ApproveLearningPattern(id: string, operator: string, now: nat) returns (found: bool)
      modifies `approvals
      ensures View() == Approve(old(View()), id, operator, now) && found == FindPattern(patterns, id).Some?
    {
      found := FindPattern(patterns, id).Some?;
      if found {
        approvals := approvals + [Approval(id, if operator != "" then operator else "operator", now)];
      }
    }

    method PromoteLearningPattern(id: string, operator: string, now: nat) returns (ok: bool)
      modifies this
      ensures (View(), ok) == Promote(old(View()), id, operator, now)
    {
      var found := FindPattern(patterns, id);
      if found.None? {
        return false;
      }
      if !Approved(approvals, id) {
        var _ := ApproveLearningPattern(id, operator, now);
      }
      var pattern := found.value;
      var blocked := pattern.contradictions >= OSCILLATION_THRESHOLD || pattern.validation.Conflicting?;
      if pattern.evidence < MINIMUM_EVIDENCE_COUNT || blocked {
        return false;
      }
      patterns := Activate(patterns, id);
      ok := true;
    }
  }

  function Signatures(events: seq<LearningEvent>): (r: set<string>)
    ensures forall e :: e in events ==> Signature(e) in r
    ensures |r| <= |events|
  {
    if events == [] then {}
    else
      assert events == Init(events) + [Last(events)];
      Signatures(Init(events)) + {Signature(Last(events))}
  }

  lemma SignaturesFit(events: seq<LearningEvent>, order: seq<string>)
    requires Distinct(order) && forall g :: g in order ==> Of(events, g) != []
    ensures |order| <= |events|
  {
    forall g | g in order
      ensures g in Signatures(events)
    {
      assert Of(events, g)[0] in Of(events, g);
    }
    DistinctFits(order, Signatures(events));
  }

  // ----- Runs -----

  datatype Move =
    | DetectMove(candidates: seq<Candidate>, stamps: seq<Stamp>)
    | ApproveMove(id: string, operator: string)
    | PromoteMove(id: string, operator: string)
    | WaitMove(ms: nat)

  datatype World = World(book: Book, now: nat)

  function LastStamp(stamps: seq<Stamp>, now: nat): nat {
    if stamps == [] then now else Last(stamps).at
  }

  function Do(w: World, m: Move): World {
    match m
    case DetectMove(candidates, stamps) =>
      if |stamps| != |candidates| then w
      else
        World(w.book.(patterns := Detect(w.book.patterns, candidates, stamps, CreatedSince(w.book.patterns, w.now - HOUR_MS)).0),
              LastStamp(stamps, w.now))
    case ApproveMove(id, operator) => w.(book := Approve(w.book, id, operator, w.now))
    case PromoteMove(id, operator) => w.(book := Promote(w.book, id, operator, w.now).0)
    case WaitMove(ms) => w.(now := w.now + ms)
  }

  function DoAll(moves: seq<Move>): World {
    if moves == [] then World(Book([], []), 0) else Do(DoAll(Init(moves)), Last(moves))
  }

  /** The clock never runs backwards while a detection handles its groups. */
  ghost predicate ClockForward(w: World, m: Move) {
    m.DetectMove? ==>
      (forall i :: 0 <= i < |m.stamps| ==> w.now <= m.stamps[i].at)
      && forall i, j :: 0 <= i < j < |m.stamps| ==> m.stamps[i].at <= m.stamps[j].at
  }

  ghost predicate ClockForwardAlways(moves: seq<Move>) {
    moves == [] || (ClockForwardAlways(Init(moves)) && ClockForward(DoAll(Init(moves)), Last(moves)))
  }

  /** How many patterns were created in `[t - 1h, t]`. */
  function InHour(patterns: seq<Pattern>, t: int): nat {
    if patterns == [] then 0
    else InHour(Init(patterns), t) + if t - HOUR_MS <= Last(patterns).createdAt <= t then 1 else 0
  }

  ghost predicate WindowOk(patterns: seq<Pattern>) {
    forall t: int :: InHour(patterns, t) <= MAX_PATTERNS_PER_HOUR
  }

  ghost predicate CreatedBy(patterns: seq<Pattern>, now: int) {
    forall p :: p in patterns ==> p.createdAt <= now
  }

  predicate SameCreations(a: seq<Pattern>, b: seq<Pattern>) {
    |a| == |b| && forall i :: 0 <= i < |a| ==> b[i].createdAt == a[i].createdAt && b[i].id == a[i].id
  }

  lemma {:induction false} SameCreationsSameHour(a: seq<Pattern>, b: seq<Pattern>, t: int)
    requires SameCreations(a, b)
    ensures InHour(b, t) == InHour(a, t)
  {
    if a != [] {
      SameCreationsSameHour(Init(a), Init(b), t);
    }
  }

  lemma {:induction false} HourWithinSince(patterns: seq<Pattern>, t: int, since: int)
    requires since <= t - HOUR_MS
    ensures InHour(patterns, t) <= CreatedSince(patterns, since)
  {
    if patterns != [] {
      HourWithinSince(Init(patterns), t, since);
    }
  }

  lemma DetectNext(patterns: seq<Pattern>, candidates: seq<Candidate>, stamps: seq<Stamp>, inWindow: nat)
    requires |stamps| == |candidates| && candidates != []
    ensures var before := Detect(patterns, Init(candidates), Init(stamps), inWindow);
            var after := Detect(patterns, candidates, stamps, inWindow);
      || (SameCreations(before.0, after.0) && after.1 == before.1)
      || (inWindow + before.1 < MAX_PATTERNS_PER_HOUR && after.1 == before.1 + 1
          && |after.0| == |before.0| + 1 && Init(after.0) == before.0 && Last(after.0).createdAt == Last(stamps).at)
  {
    hide Known, Refreshed;
    var before := Detect(patterns, Init(candidates), Init(stamps), inWindow);
    assert Init(before.0 + [Created(Last(stamps).id, Last(candidates), Last(stamps).at)]) == before.0;
    assert Created(Last(stamps).id, Last(candidates), Last(stamps).at).createdAt == Last(stamps).at by {
      RefreshKeepsCreation(Pattern(Last(stamps).id, Last(candidates).signature, Last(candidates).scope, Shadow, Unsettled, 0.0, 0, 0, 0, Last(stamps).at),
                           Last(candidates));
    }
    forall i | 0 <= i < |before.0|
      ensures RefreshAll(before.0, Last(candidates))[i].createdAt == before.0[i].createdAt
      ensures RefreshAll(before.0, Last(candidates))[i].id == before.0[i].id
    {
      RefreshKeepsCreation(before.0[i], Last(candidates));
    }
  }

  lemma RefreshKeepsCreation(p: Pattern, c: Candidate)
    ensures Refreshed(p, c).createdAt == p.createdAt && Refreshed(p, c).id == p.id && Refreshed(p, c).mode == p.mode
  {
  }

  /** A detection appends only what fits the window counted at its start, and at moments not before it. */
  lemma {:induction false} DetectAppends(patterns: seq<Pattern>, candidates: seq<Candidate>, stamps: seq<Stamp>, inWindow: nat, now: nat, t: int)
    requires |stamps| == |candidates|
    requires forall i :: 0 <= i < |stamps| ==> now <= stamps[i].at
    ensures var r := Detect(patterns, candidates, stamps, inWindow);
      && InHour(patterns, t) <= InHour(r.0, t) <= InHour(patterns, t) + r.1
      && (t < now ==> InHour(r.0, t) == InHour(patterns, t))
      && (r.1 > 0 ==> inWindow + r.1 <= MAX_PATTERNS_PER_HOUR)
  {
    if candidates != [] {
      DetectAppends(patterns, Init(candidates), Init(stamps), inWindow, now, t);
      DetectNext(patterns, candidates, stamps, inWindow);
      hide Detect;
      var before := Detect(patterns, Init(candidates), Init(stamps), inWindow);
      var after := Detect(patterns, candidates, stamps, inWindow);
      if SameCreations(before.0, after.0) {
        SameCreationsSameHour(before.0, after.0, t);
      }
    }
  }

  lemma {:induction false} DetectCreatedBy(patterns: seq<Pattern>, candidates: seq<Candidate>, stamps: seq<Stamp>, inWindow: nat, end: nat)
    requires |stamps| == |candidates| && CreatedBy(patterns, end)
    requires forall i :: 0 <= i < |stamps| ==> stamps[i].at <= end
    ensures CreatedBy(Detect(patterns, candidates, stamps, inWindow).0, end)
  {
    if candidates != [] {
      DetectCreatedBy(patterns, Init(candidates), Init(stamps), inWindow, end);
    }
  }

  lemma DetectKeepsWindow(patterns: seq<Pattern>, candidates: seq<Candidate>, stamps: seq<Stamp>, now: nat)
    requires WindowOk(patterns) && CreatedBy(patterns, now) && |stamps| == |candidates|
    requires forall i :: 0 <= i < |stamps| ==> now <= stamps[i].at
    ensures WindowOk(Detect(patterns, candidates, stamps, CreatedSince(patterns, now - HOUR_MS)).0)
  {
    var inWindow := CreatedSince(patterns, now - HOUR_MS);
    var r := Detect(patterns, candidates, stamps, inWindow);
    forall t: int
      ensures InHour(r.0, t) <= MAX_PATTERNS_PER_HOUR
    {
      DetectAppends(patterns, candidates, stamps, inWindow, now, t);
      assert InHour(patterns, t) <= MAX_PATTERNS_PER_HOUR;
      if t >= now {
        HourWithinSince(patterns, t, now - HOUR_MS);
      }
    }
  }

  /** An active pattern has an approval. */
  ghost predicate ActiveAreApproved(b: Book) {
    forall p :: p in b.patterns && p.mode.Active? ==> Approved(b.approvals, p.id)
  }

  lemma {:induction false} DetectKeepsApproved(b: Book, candidates: seq<Candidate>, stamps: seq<Stamp>, inWindow: nat)
    requires |stamps| == |candidates| && ActiveAreApproved(b)
    ensures ActiveAreApproved(b.(patterns := Detect(b.patterns, candidates, stamps, inWindow).0))
  {
    if candidates != [] {
      DetectKeepsApproved(b, Init(candidates), Init(stamps), inWindow);
      var before := Detect(b.patterns, Init(candidates), Init(stamps), inWindow);
      var after := Detect(b.patterns, candidates, stamps, inWindow).0;
      forall p | p in after && p.mode.Active?
        ensures Approved(b.approvals, p.id)
      {
        var i :| 0 <= i < |after| && after[i] == p;
        assert i < |before.0| && before.0[i] in before.0;
      }
    }
  }

  ghost predicate Inv(w: World) {
    WindowOk(w.book.patterns) && CreatedBy(w.book.patterns, w.now) && ActiveAreApproved(w.book)
  }

  lemma MoveKeepsInv(w: World, m: Move)
    requires Inv(w) && ClockForward(w, m)
    ensures Inv(Do(w, m))
  {
    match m
    case DetectMove(candidates, stamps) =>
      if |stamps| == |candidates| {
        var inWindow := CreatedSince(w.book.patterns, w.now - HOUR_MS);
        DetectKeepsWindow(w.book.patterns, candidates, stamps, w.now);
        DetectCreatedBy(w.book.patterns, candidates, stamps, inWindow, LastStamp(stamps, w.now));
        DetectKeepsApproved(w.book, candidates, stamps, inWindow);
      }
    case ApproveMove(id, operator) => ApprovalsOnlyGrow(w.book, id, operator, w.now);
    case PromoteMove(id, operator) => PromotionKeeps(w.book, id, operator, w.now);
    case WaitMove(ms) =>
  }

  lemma ApprovalsOnlyGrow(b: Book, id: string, operator: string, now: nat)
    requires ActiveAreApproved(b)
    ensures ActiveAreApproved(Approve(b, id, operator, now)) && Approve(b, id, operator, now).patterns == b.patterns
  {
    forall x | Approved(b.approvals, x)
      ensures Approved(Approve(b, id, operator, now).approvals, x)
    {
      var a :| a in b.approvals && a.patternId == x;
      assert a in Approve(b, id, operator, now).approvals;
    }
  }

  lemma PromotionKeeps(b: Book, id: string, operator: string, now: nat)
    requires ActiveAreApproved(b) && WindowOk(b.patterns)
    ensures var after := Promote(b, id, operator, now).0;
      ActiveAreApproved(after) && SameCreations(b.patterns, after.patterns) && WindowOk(after.patterns)
  {
    var after := Promote(b, id, operator, now).0;
    ApprovalsOnlyGrow(b, id, operator, now);
    if FindPattern(b.patterns, id).Some? {
      var approved := if Approved(b.approvals, id) then b else Approve(b, id, operator, now);
      assert Approved(approved.approvals, id) by {
        if !Approved(b.approvals, id) {
          assert approved.approvals[|b.approvals|].patternId == id;
        }
      }
      forall p | p in after.patterns && p.mode.Active?
        ensures Approved(after.approvals, p.id)
      {
        var i :| 0 <= i < |after.patterns| && after.patterns[i] == p;
        assert b.patterns[i] in b.patterns;
      }
    }
    forall t: int
      ensures InHour(after.patterns, t) <= MAX_PATTERNS_PER_HOUR
    {
      SameCreationsSameHour(b.patterns, after.patterns, t);
      assert InHour(b.patterns, t) <= MAX_PATTERNS_PER_HOUR;
    }
  }

  /** Over any sequence of detections, approvals and promotions: at most ten patterns were created in any hour, although a
      detection counts the window only once, at its start; and every active pattern has an approval. */
  lemma {:induction false} RunsStayWithinLimits(moves: seq<Move>)
    requires ClockForwardAlways(moves)
    ensures var w := DoAll(moves);
      && (forall t: int :: InHour(w.book.patterns, t) <= MAX_PATTERNS_PER_HOUR)
      && (forall p :: p in w.book.patterns && p.mode.Active? ==> Approved(w.book.approvals, p.id))
      && CreatedBy(w.book.patterns, w.now)
  {
    if moves != [] {
      RunsStayWithinLimits(Init(moves));
      assert Inv(DoAll(Init(moves)));
      MoveKeepsInv(DoAll(Init(moves)), Last(moves));
      assert Inv(DoAll(moves));
    }
  }

  /** A promotion makes a pattern active exactly when it exists and its stored evidence allows it; a refused promotion of an
      existing pattern still leaves an approval behind. */
  lemma PromotionExactly(b: Book, id: string, operator: string, now: nat)
    ensures var r := Promote(b, id, operator, now); var found := FindPattern(b.patterns, id);
      && (r.1 <==> found.Some? && found.value.evidence >= 3 && found.value.contradictions < 3
                   && found.value.validation in {Validated, Unsettled})
      && (r.1 ==> |r.0.patterns| == |b.patterns| && forall i :: 0 <= i < |b.patterns| ==>
            var p := b.patterns[i]; r.0.patterns[i] == if p.id == id then p.(mode := Active) else p)
      && (!r.1 ==> r.0.patterns == b.patterns)
      && (found.Some? ==> Approved(r.0.approvals, id))
      && (r.0.approvals == b.approvals
          || (found.Some? && !Approved(b.approvals, id)
              && r.0.approvals == b.approvals + [Approval(id, if operator == "" then "operator" else operator, now)]))
  {
    var r := Promote(b, id, operator, now);
    if FindPattern(b.patterns, id).Some? && !Approved(b.approvals, id) {
      assert r.0.approvals[|b.approvals|].patternId == id;
    }
  }

  // ----- What a detection leaves -----

  /** The pattern says what the candidate says. */
  predicate Carries(p: Pattern, c: Candidate) {
    && p.signature == c.signature && p.scope == c.scope && p.evidence == c.evidence && p.lastSeenAt == c.lastSeenAt
    && var v := Classify(c.positive, c.negative);
       p.validation == v.0 && p.contradictions == v.1 && p.confidence == Confidence(c.evidence, v.0)
  }

  ghost predicate DistinctSignatures(candidates: seq<Candidate>) {
    forall i, j :: 0 <= i < j < |candidates| ==> candidates[i].signature != candidates[j].signature
  }

  /** How many of the candidates no pattern is known for. */
  function NewAmong(patterns: seq<Pattern>, candidates: seq<Candidate>): nat {
    if candidates == [] then 0
    else NewAmong(patterns, Init(candidates)) + if Known(patterns, Last(candidates).signature) then 0 else 1
  }

  function Least(a: int, b: int): int {
    if a < b then a else b
  }

  predicate Offers(candidates: seq<Candidate>, signature: string) {
    exists c :: c in candidates && c.signature == signature
  }

  /** The patterns after a detection of candidates with different signatures, so far. */
  ghost predicate DetectedSoFar(patterns: seq<Pattern>, candidates: seq<Candidate>, r: (seq<Pattern>, nat), inWindow: nat) {
    && |r.0| == |patterns| + r.1
    && r.1 == Least(NewAmong(patterns, candidates), if inWindow < MAX_PATTERNS_PER_HOUR then MAX_PATTERNS_PER_HOUR - inWindow else 0)
    && OldOnesFollow(patterns, candidates, r.0) && NewOnesFollow(patterns, candidates, r.0) && AllCarry(candidates, r.0)
  }

  /** Known patterns keep their place and what makes them up, and stay untouched if nothing was offered for them. */
  ghost predicate OldOnesFollow(patterns: seq<Pattern>, candidates: seq<Candidate>, after: seq<Pattern>) {
    && |patterns| <= |after|
    && forall i :: 0 <= i < |patterns| ==>
         && after[i].id == patterns[i].id && after[i].signature == patterns[i].signature
         && after[i].createdAt == patterns[i].createdAt && after[i].mode == patterns[i].mode
         && (!Offers(candidates, patterns[i].signature) ==> after[i] == patterns[i])
  }

  ghost predicate NewOnesFollow(patterns: seq<Pattern>, candidates: seq<Candidate>, after: seq<Pattern>) {
    forall i :: |patterns| <= i < |after| ==>
      after[i].mode.Shadow? && Offers(candidates, after[i].signature) && !Known(patterns, after[i].signature)
  }

  ghost predicate AllCarry(candidates: seq<Candidate>, after: seq<Pattern>) {
    forall p, c :: p in after && c in candidates && p.signature == c.signature ==> Carries(p, c)
  }

  lemma OffersMore(candidates: seq<Candidate>, signature: string)
    requires candidates != []
    ensures Offers(candidates, signature) <==> Offers(Init(candidates), signature) || Last(candidates).signature == signature
  {
    assert candidates == Init(candidates) + [Last(candidates)];
  }

  lemma LastIsNotOffered(candidates: seq<Candidate>)
    requires DistinctSignatures(candidates) && candidates != []
    ensures DistinctSignatures(Init(candidates)) && !Offers(Init(candidates), Last(candidates).signature)
  {
    assert forall i :: 0 <= i < |candidates| - 1 ==> Init(candidates)[i] == candidates[i];
  }

  /** A detection creates as many patterns as there are new signatures, or as the window has room for, each in shadow mode; every
      pattern whose signature was seen says what its candidate says, and the others stay as they are. */
  lemma {:induction false} DetectsExactly(patterns: seq<Pattern>, candidates: seq<Candidate>, stamps: seq<Stamp>, inWindow: nat)
    requires |stamps| == |candidates| && DistinctSignatures(candidates)
    ensures DetectedSoFar(patterns, candidates, Detect(patterns, candidates, stamps, inWindow), inWindow)
  {
    if candidates != [] {
      var before := Detect(patterns, Init(candidates), Init(stamps), inWindow);
      LastIsNotOffered(candidates);
      DetectsExactly(patterns, Init(candidates), Init(stamps), inWindow);
      DetectsOneMore(patterns, candidates, before, Detect(patterns, candidates, stamps, inWindow), Last(stamps), inWindow);
    }
  }

  lemma DetectsOneMore(patterns: seq<Pattern>, candidates: seq<Candidate>, before: (seq<Pattern>, nat), after: (seq<Pattern>, nat), stamp: Stamp, inWindow: nat)
    requires candidates != [] && !Offers(Init(candidates), Last(candidates).signature)
    requires DetectedSoFar(patterns, Init(candidates), before, inWindow)
    requires after == var c := Last(candidates);
      if Known(before.0, c.signature) then (RefreshAll(before.0, c), before.1)
      else if inWindow + before.1 >= MAX_PATTERNS_PER_HOUR then before
      else (before.0 + [Created(stamp.id, c, stamp.at)], before.1 + 1)
    ensures DetectedSoFar(patterns, candidates, after, inWindow)
  {
    forall signature
      ensures Offers(candidates, signature) <==> Offers(Init(candidates), signature) || Last(candidates).signature == signature
    {
      OffersMore(candidates, signature);
    }
    KnownBefore(patterns, candidates, before, inWindow);
    assert candidates == Init(candidates) + [Last(candidates)];
    OldOnesStill(patterns, candidates, before.0, after.0, stamp);
    NewOnesStill(patterns, candidates, before.0, after.0, stamp);
    AllStillCarry(candidates, before.0, after.0, stamp);
    hide Offers, Classify, Confidence, OldOnesFollow, NewOnesFollow, AllCarry, Known, Refreshed;
  }

  /** What one candidate may do. */
  ghost predicate Handles(before: seq<Pattern>, after: seq<Pattern>, c: Candidate, stamp: Stamp) {
    || after == RefreshAll(before, c)
    || (!Known(before, c.signature) && (after == before || after == before + [Created(stamp.id, c, stamp.at)]))
  }

  lemma OldOnesStill(patterns: seq<Pattern>, candidates: seq<Candidate>, before: seq<Pattern>, after: seq<Pattern>, stamp: Stamp)
    requires candidates != [] && OldOnesFollow(patterns, Init(candidates), before) && Handles(before, after, Last(candidates), stamp)
    ensures OldOnesFollow(patterns, candidates, after)
  {
    forall signature
      ensures Offers(candidates, signature) <==> Offers(Init(candidates), signature) || Last(candidates).signature == signature
    {
      OffersMore(candidates, signature);
    }
    hide Offers, Classify, Confidence;
  }

  lemma NewOnesStill(patterns: seq<Pattern>, candidates: seq<Candidate>, before: seq<Pattern>, after: seq<Pattern>, stamp: Stamp)
    requires candidates != [] && NewOnesFollow(patterns, Init(candidates), before) && Handles(before, after, Last(candidates), stamp)
    requires |patterns| <= |before| && (Known(patterns, Last(candidates).signature) ==> Known(before, Last(candidates).signature))
    ensures NewOnesFollow(patterns, candidates, after)
  {
    forall signature
      ensures Offers(candidates, signature) <==> Offers(Init(candidates), signature) || Last(candidates).signature == signature
    {
      OffersMore(candidates, signature);
    }
    hide Offers, Classify, Confidence, Known;
  }

  lemma AllStillCarry(candidates: seq<Candidate>, before: seq<Pattern>, after: seq<Pattern>, stamp: Stamp)
    requires candidates != [] && !Offers(Init(candidates), Last(candidates).signature)
    requires AllCarry(Init(candidates), before) && Handles(before, after, Last(candidates), stamp)
    ensures AllCarry(candidates, after)
  {
    assert candidates == Init(candidates) + [Last(candidates)];
    hide Classify, Confidence;
  }

  lemma KnownBefore(patterns: seq<Pattern>, candidates: seq<Candidate>, before: (seq<Pattern>, nat), inWindow: nat)
    requires candidates != [] && !Offers(Init(candidates), Last(candidates).signature)
    requires DetectedSoFar(patterns, Init(candidates), before, inWindow)
    ensures Known(before.0, Last(candidates).signature) <==> Known(patterns, Last(candidates).signature)
  {
  }

  lemma CountsTheNew(patterns: seq<Pattern>, candidates: seq<Candidate>, r: (seq<Pattern>, nat), inWindow: nat)
    requires DetectedSoFar(patterns, candidates, r, inWindow)
    ensures |r.0| == |patterns| + r.1
  {
  }

  lemma GroupsKeepTheirSignatures(events: seq<LearningEvent>, order: seq<string>, groups: map<string, Candidate>)
    requires Distinct(order) && forall g :: g in order <==> g in groups
    requires forall g :: g in groups <==> Of(events, g) != []
    requires forall g :: g in groups ==> groups[g] == Summary(Of(events, g))
    ensures DistinctSignatures(Ordered(order, groups))
  {
    forall i | 0 <= i < |order|
      ensures Ordered(order, groups)[i].signature == order[i]
    {
      assert order[i] in order;
      assert Of(events, order[i])[0] in Of(events, order[i]);
    }
  }

  /** A detection, over whatever patterns and candidates, leaves the mode of every known pattern as it is. */
  lemma {:induction false} DetectionKeepsModes(patterns: seq<Pattern>, candidates: seq<Candidate>, stamps: seq<Stamp>, inWindow: nat)
    requires |stamps| == |candidates|
    ensures var after := Detect(patterns, candidates, stamps, inWindow).0;
      && |patterns| <= |after|
      && forall i :: 0 <= i < |patterns| ==>
           after[i].id == patterns[i].id && after[i].signature == patterns[i].signature && after[i].mode == patterns[i].mode
  {
    if candidates != [] {
      DetectionKeepsModes(patterns, Init(candidates), Init(stamps), inWindow);
    }
  }

  /** So nothing demotes: a known active pattern whose last evidence in a detection is mixed turns conflicting and can no
      longer be promoted, yet it stays active. */
  lemma ConflictDoesNotDemote(patterns: seq<Pattern>, candidates: seq<Candidate>, stamps: seq<Stamp>, inWindow: nat, i: nat)
    requires |stamps| == |candidates| && candidates != [] && i < |patterns| && patterns[i].mode.Active?
    requires var c := Last(candidates); c.signature == patterns[i].signature && c.positive > 0 && c.negative > 0
    ensures var after := Detect(patterns, candidates, stamps, inWindow).0;
      i < |after| && after[i].mode.Active? && after[i].validation.Conflicting? && !Promotable(after[i])
  {
    var before := Detect(patterns, Init(candidates), Init(stamps), inWindow).0;
    DetectionKeepsModes(patterns, Init(candidates), Init(stamps), inWindow);
    assert before[i] in before && before[i].signature == patterns[i].signature;
  }
}
