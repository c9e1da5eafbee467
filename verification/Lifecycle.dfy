/** The life of an atomic case (app/cases/service.py): observations,
    acknowledgement coverage, report generations and reminder eligibility. */
module Lifecycle {
  import opened Types
  import opened Attention

  datatype ObservationStatus = FiringSeen | CleanSeen | ResolvedSeen | UnknownSeen
  datatype SourceHealth = Healthy | Degraded | HealthUnknown | HealthFailed

  datatype Observation = Observation(status: ObservationStatus, severity: Severity, signal: string,
                                     health: SourceHealth) {
    predicate PositiveClean() {
      (status.CleanSeen? || status.ResolvedSeen?) && !health.Degraded? && !health.HealthFailed?
    }
  }

  /** The severity an acknowledgement covers, keyed by the acknowledgement's own time. */
  datatype AckScope = AckScope(at: Option<Instant>, severity: Severity)

  /** The case rows and the acknowledgement scopes beside them. */
  datatype Table = Table(cases: map<string, AtomicCase>, scopes: map<string, AckScope>)

  function ScopeOf(t: Table, id: string, at: Option<Instant>): Option<Severity> {
    if id in t.scopes && t.scopes[id].at == at then Some(t.scopes[id].severity) else None
  }

  predicate Revives(s: CaseStatus) {
    s.Resolved? || s.RecoveredPending?
  }

  /** What an acknowledgement covers: its recorded scope, or the last known severity. */
  function Covered(t: Table, id: string): Severity
    requires id in t.cases
  {
    var c := t.cases[id];
    var scope := ScopeOf(t, id, c.acknowledgedAt);
    if c.Acknowledged() && scope.Some? then scope.value else c.severity
  }

  predicate Breaks(c: AtomicCase, covered: Severity, severity: Severity) {
    Revives(c.status) || (c.Acknowledged() && severity.Rank() > covered.Rank())
  }

  function Fired(c: AtomicCase, covered: Severity, o: Observation): AtomicCase {
    var breaks := Breaks(c, covered, o.severity);
    c.(acknowledgedAt := if breaks then None else c.acknowledgedAt,
       acknowledgedBy := if breaks then "" else c.acknowledgedBy,
       generation := c.generation + if breaks then 1 else 0,
       previousSignal := if c.signal != o.signal then c.signal else c.previousSignal,
       signal := o.signal,
       severity := o.severity,
       status := if Revives(c.status) then Investigating else c.status,
       resolutionReason := "")
  }

  function ObserveFiring(t: Table, id: string, o: Observation): Table
    requires id in t.cases
  {
    var c := t.cases[id];
    var adopts := c.Acknowledged() && ScopeOf(t, id, c.acknowledgedAt).None?;
    Table(t.cases[id := Fired(c, Covered(t, id), o)],
          if adopts then t.scopes[id := AckScope(c.acknowledgedAt, c.severity)] else t.scopes)
  }

  function Cleaned(c: AtomicCase, o: Observation): AtomicCase {
    if o.PositiveClean() then c.(status := Resolved, resolutionReason := POSITIVE_CLEAN) else c
  }

  function Observe(t: Table, id: string, o: Observation): Table
    requires id in t.cases
  {
    match o.status
    case FiringSeen => ObserveFiring(t, id, o)
    case UnknownSeen => t
    case _ => t.(cases := t.cases[id := Cleaned(t.cases[id], o)])
  }

  function Acknowledge(t: Table, id: string, operator: string, now: Instant): Table
    requires id in t.cases
  {
    var c := t.cases[id];
    Table(t.cases[id := c.(acknowledgedBy := operator, acknowledgedAt := Some(now))],
          t.scopes[id := AckScope(Some(now), c.severity)])
  }

  /** A non-positive time to live clears the suppression. */
  function SuppressedCase(c: AtomicCase, now: Instant, ttlSeconds: int): AtomicCase {
    var until := if ttlSeconds > 0 then At(now + Seconds(ttlSeconds)) else Absent;
    c.(suppressedUntil := until, snoozedUntil := until)
  }

  function ExpiredCase(c: AtomicCase, now: Instant): AtomicCase {
    var until := if c.suppressedUntil.Absent? then c.snoozedUntil else c.suppressedUntil;
    if until.At? && until.instant <= now then c.(suppressedUntil := Absent, snoozedUntil := Absent) else c
  }

  function ReportedCase(c: AtomicCase, signature: Signature, now: Instant): AtomicCase {
    c.(lastReportedAt := Some(now), lastReportedSignature := Some(signature))
  }

  /** Every write to a case row. `Relate` is the correlation service; `Move` stands
      for the graph, operator decisions and handoffs, which set the status only. */
  datatype Op =
    | OpenCase(created: AtomicCase)
    | ObserveCase(id: string, o: Observation)
    | AckCase(id: string, operator: string)
    | SuppressCase(id: string, ttlSeconds: int)
    | ExpireCase(id: string)
    | MarkReported(id: string, signature: Signature)
    | Relate(id: string, metaId: string, covered: bool, independent: bool)
    | Move(id: string, status: CaseStatus, resolutionReason: string)
    | LinkIssue(id: string, issueUrl: string)

  predicate NewCase(c: AtomicCase) {
    && c.status.Investigating? && c.generation == 0 && !c.Acknowledged()
    && c.suppressedUntil.Absent? && c.snoozedUntil.Absent? && !c.covered && !c.independent
    && c.lastReportedAt.None? && c.lastReportedSignature.None? && c.resolutionReason == ""
  }

  function Put(t: Table, c: AtomicCase): Table {
    t.(cases := t.cases[c.caseId := c])
  }

  function ApplyOp(t: Table, op: Op, now: Instant): Table {
    if op.OpenCase? then
      if op.created.caseId !in t.cases && NewCase(op.created) then Put(t, op.created) else t
    else if op.id !in t.cases then t
    else
      var c := t.cases[op.id];
      match op
      case ObserveCase(id, o) => Observe(t, id, o)
      case AckCase(id, operator) => Acknowledge(t, id, operator, now)
      case SuppressCase(id, ttl) => t.(cases := t.cases[id := SuppressedCase(c, now, ttl)])
      case ExpireCase(id) => t.(cases := t.cases[id := ExpiredCase(c, now)])
      case MarkReported(id, signature) => t.(cases := t.cases[id := ReportedCase(c, signature, now)])
      case Relate(id, metaId, covered, independent) =>
        t.(cases := t.cases[id := c.(metaId := metaId, covered := covered, independent := independent)])
      case Move(id, status, reason) => t.(cases := t.cases[id := c.(status := status, resolutionReason := reason)])
      case LinkIssue(id, url) => t.(cases := t.cases[id := c.(issueUrl := url)])
      case OpenCase(_) => t
  }

  // ----- reminders

  predicate ShouldRemind(c: AtomicCase, now: Instant, reassertSeconds: int, attentionEnabled: bool) {
    && !(attentionEnabled && c.Monitored())
    && c.severity.High? && !c.Acknowledged()
    && !c.status.Resolved? && !Retired(c.status)
    && !Held(c, now)
    && c.lastReportedSignature == Some(c.ReportSignature())
    && c.lastReportedAt.Some?
    && now - c.lastReportedAt.value >= ReminderSpan(reassertSeconds)
  }

  /** The case as a legacy reminder sees it: the later of report and attention delivery. */
  function LegacyProjection(c: AtomicCase, attention: Option<AttentionDelivery>, pending: bool): Option<AtomicCase> {
    if !c.Monitored() then Some(c)
    else if pending then None
    else if attention.Some? && (c.lastReportedAt.None? || attention.value.deliveredAt > c.lastReportedAt.value)
    then Some(c.(lastReportedAt := Some(attention.value.deliveredAt)))
    else Some(c)
  }

  // ----- generations

  /** No write lowers a report generation or removes a case. */
  lemma GenerationMonotone(t: Table, op: Op, now: Instant, id: string)
    requires id in t.cases
    ensures id in ApplyOp(t, op, now).cases
    ensures t.cases[id].generation <= ApplyOp(t, op, now).cases[id].generation
  {
  }

  predicate KeyedById(t: Table) {
    forall id :: id in t.cases ==> t.cases[id].caseId == id
  }

  lemma KeysKept(t: Table, op: Op, now: Instant)
    requires KeyedById(t)
    ensures KeyedById(ApplyOp(t, op, now))
  {
  }

  // ----- acknowledgement coverage

  function ObserveAll(t: Table, id: string, obs: seq<Observation>): (r: Table)
    requires id in t.cases
    ensures id in r.cases
  {
    if obs == [] then t else Observe(ObserveAll(t, id, obs[..|obs| - 1]), id, obs[|obs| - 1])
  }

  /** Whether the case is resolved or recovering when observation `k` arrives,
      told from the observations alone, provided nothing revived it before. */
  predicate QuietAt(start: CaseStatus, obs: seq<Observation>, k: nat)
    requires k <= |obs|
  {
    Revives(start) || exists j :: 0 <= j < k && obs[j].PositiveClean()
  }

  /** A firing observation beyond what the acknowledgement covers. */
  predicate Breach(start: CaseStatus, covered: Severity, obs: seq<Observation>, k: nat)
    requires k < |obs|
  {
    obs[k].status.FiringSeen? && (obs[k].severity.Rank() > covered.Rank() || QuietAt(start, obs, k))
  }

  predicate Unbreached(start: CaseStatus, covered: Severity, obs: seq<Observation>, n: nat)
    requires n <= |obs|
  {
    forall k :: 0 <= k < n ==> !Breach(start, covered, obs, k)
  }

  /** The same acknowledgement, covering the same severity, in the same generation. */
  predicate SameAck(t: Table, u: Table, id: string) {
    && id in t.cases && id in u.cases
    && t.cases[id].acknowledgedAt == u.cases[id].acknowledgedAt
    && t.cases[id].acknowledgedBy == u.cases[id].acknowledgedBy
    && t.cases[id].generation == u.cases[id].generation
    && Covered(t, id) == Covered(u, id)
  }

  lemma AckStep(t: Table, id: string, o: Observation)
    requires id in t.cases && t.cases[id].Acknowledged()
    requires o.status.FiringSeen? ==> !Breaks(t.cases[id], Covered(t, id), o.severity)
    ensures SameAck(t, Observe(t, id, o), id)
    ensures Revives(Observe(t, id, o).cases[id].status) <==> Revives(t.cases[id].status) || o.PositiveClean()
  {
  }

  lemma {:induction false} AckHolds(t: Table, id: string, obs: seq<Observation>, n: nat)
    requires id in t.cases && t.cases[id].Acknowledged() && n <= |obs|
    requires Unbreached(t.cases[id].status, Covered(t, id), obs, n)
    ensures SameAck(t, ObserveAll(t, id, obs[..n]), id)
    ensures Revives(ObserveAll(t, id, obs[..n]).cases[id].status) <==> QuietAt(t.cases[id].status, obs, n)
  {
    if n > 0 {
      AckHolds(t, id, obs, n - 1);
      assert obs[..n][..n - 1] == obs[..n - 1];
      assert !Breach(t.cases[id].status, Covered(t, id), obs, n - 1);
      var before := ObserveAll(t, id, obs[..n - 1]);
      AckStep(before, id, obs[n - 1]);
      QuietStep(t.cases[id].status, obs, n - 1);
    }
  }

  lemma QuietStep(start: CaseStatus, obs: seq<Observation>, k: nat)
    requires k < |obs|
    ensures QuietAt(start, obs, k + 1) <==> QuietAt(start, obs, k) || obs[k].PositiveClean()
  {
    if obs[k].PositiveClean() {
      assert 0 <= k < k + 1 && obs[k].PositiveClean();
    }
  }

  /** The first breach clears both acknowledgement fields and raises the
      generation by exactly one. */
  lemma FirstBreachClears(t: Table, id: string, obs: seq<Observation>, n: nat)
    requires id in t.cases && t.cases[id].Acknowledged() && n < |obs|
    requires Unbreached(t.cases[id].status, Covered(t, id), obs, n)
    requires Breach(t.cases[id].status, Covered(t, id), obs, n)
    ensures var b := ObserveAll(t, id, obs[..n + 1]).cases[id];
            && b.acknowledgedAt == None && b.acknowledgedBy == ""
            && b.generation == t.cases[id].generation + 1
  {
    AckHolds(t, id, obs, n);
    assert obs[..n + 1][..n] == obs[..n];
  }

  lemma {:induction false} ClearedStaysCleared(t: Table, id: string, obs: seq<Observation>)
    requires id in t.cases && !t.cases[id].Acknowledged()
    ensures !ObserveAll(t, id, obs).cases[id].Acknowledged()
  {
    if obs != [] {
      ClearedStaysCleared(t, id, obs[..|obs| - 1]);
    }
  }

  lemma {:induction false} ObserveSplit(t: Table, id: string, a: seq<Observation>, b: seq<Observation>)
    requires id in t.cases
    ensures ObserveAll(t, id, a + b) == ObserveAll(ObserveAll(t, id, a), id, b)
  {
    if b == [] {
      assert a + b == a;
    } else {
      ObserveSplit(t, id, a, b[..|b| - 1]);
      assert (a + b)[..|a + b| - 1] == a + b[..|b| - 1];
    }
  }

  lemma BreachedEndsCleared(t: Table, id: string, obs: seq<Observation>)
    requires id in t.cases && t.cases[id].Acknowledged()
    requires !Unbreached(t.cases[id].status, Covered(t, id), obs, |obs|)
    ensures !ObserveAll(t, id, obs).cases[id].Acknowledged()
  {
    var n := FirstBreach(t.cases[id].status, Covered(t, id), obs, |obs|);
    FirstBreachClears(t, id, obs, n);
    assert obs == obs[..n + 1] + obs[n + 1..];
    ObserveSplit(t, id, obs[..n + 1], obs[n + 1..]);
    ClearedStaysCleared(ObserveAll(t, id, obs[..n + 1]), id, obs[n + 1..]);
  }

  /** An acknowledged case is still acknowledged after any sequence of
      observations if and only if none of them breached its coverage, and then
      nothing about the acknowledgement or the generation changed. */
  lemma AckStandsIffUnbreached(t: Table, id: string, obs: seq<Observation>)
    requires id in t.cases && t.cases[id].Acknowledged()
    ensures var b := ObserveAll(t, id, obs).cases[id];
            && (b.Acknowledged() <==> Unbreached(t.cases[id].status, Covered(t, id), obs, |obs|))
            && (b.Acknowledged() ==> SameAck(t, ObserveAll(t, id, obs), id))
  {
    var start, covered := t.cases[id].status, Covered(t, id);
    assert obs[..|obs|] == obs;
    if Unbreached(start, covered, obs, |obs|) {
      AckHolds(t, id, obs, |obs|);
    } else {
      BreachedEndsCleared(t, id, obs);
    }
  }

  lemma {:induction false} FirstBreach(start: CaseStatus, covered: Severity, obs: seq<Observation>, m: nat)
    returns (n: nat)
    requires m <= |obs| && !Unbreached(start, covered, obs, m)
    ensures n < m && Unbreached(start, covered, obs, n) && Breach(start, covered, obs, n)
  {
    if Unbreached(start, covered, obs, m - 1) {
      n := m - 1;
    } else {
      n := FirstBreach(start, covered, obs, m - 1);
    }
  }

  /** A missing scope is adopted by the first firing observation, at the severity
      known before it, and is then on record for the acknowledgement. */
  lemma MissingScopeAdopted(t: Table, id: string, o: Observation)
    requires id in t.cases && t.cases[id].Acknowledged() && o.status.FiringSeen?
    requires ScopeOf(t, id, t.cases[id].acknowledgedAt).None?
    ensures ScopeOf(Observe(t, id, o), id, t.cases[id].acknowledgedAt) == Some(t.cases[id].severity)
    ensures Observe(t, id, o).cases[id].Acknowledged() ==> Covered(Observe(t, id, o), id) == t.cases[id].severity
  {
  }

  /** Acknowledging covers the severity at that moment. */
  lemma AckCoversItsSeverity(t: Table, id: string, operator: string, now: Instant)
    requires id in t.cases
    ensures var u := Acknowledge(t, id, operator, now);
            u.cases[id].Acknowledged() && Covered(u, id) == t.cases[id].severity
  {
  }

  // ----- what each write leaves

  /** A firing observation is recorded in signal, severity and an empty reason; it
      revives a resolved or recovering case, and touches nothing else but what a breach
      of the acknowledgement does. */
  lemma FiringIsRecorded(t: Table, id: string, o: Observation, now: Instant)
    requires id in t.cases && o.status == FiringSeen
    ensures var c, d, u :=
              t.cases[id], ApplyOp(t, ObserveCase(id, o), now).cases[id], ApplyOp(t, ObserveCase(id, o), now);
            && d.signal == o.signal && d.severity == o.severity && d.resolutionReason == ""
            && (c.signal != o.signal ==> d.previousSignal == c.signal)
            && (c.signal == o.signal ==> d.previousSignal == c.previousSignal)
            && (c.status == CaseStatus.Resolved || c.status == RecoveredPending ==>
                  d.status == Investigating && d.generation == c.generation + 1
                  && d.acknowledgedAt == None && d.acknowledgedBy == "")
            && (c.status != CaseStatus.Resolved && c.status != RecoveredPending ==> d.status == c.status)
            && d.caseId == c.caseId && d.source == c.source && d.suppressedUntil == c.suppressedUntil
            && d.snoozedUntil == c.snoozedUntil && d.covered == c.covered && d.independent == c.independent
            && d.metaId == c.metaId && d.issueUrl == c.issueUrl
            && d.lastReportedAt == c.lastReportedAt && d.lastReportedSignature == c.lastReportedSignature
            && (forall x :: x in t.cases && x != id ==> x in u.cases && u.cases[x] == t.cases[x])
  {
  }

  /** Only a clean or resolved observation of a source that is neither degraded nor
      failed resolves a case; any other that is not firing leaves the table as it was. */
  lemma CleanIsRecorded(t: Table, id: string, o: Observation, now: Instant)
    requires id in t.cases && o.status != FiringSeen
    ensures ApplyOp(t, ObserveCase(id, o), now) ==
              if o.status in {CleanSeen, ResolvedSeen} && o.health in {Healthy, HealthUnknown}
              then t.(cases := t.cases[id := t.cases[id].(status := CaseStatus.Resolved,
                                                          resolutionReason := "positive_clean_observation")])
              else t
  {
    assert t.cases[id := t.cases[id]] == t.cases;
  }

  /** An acknowledgement names its operator and its instant, and changes nothing else. */
  lemma AckIsRecorded(t: Table, id: string, operator: string, now: Instant)
    requires id in t.cases
    ensures var u := ApplyOp(t, AckCase(id, operator), now);
            && id in u.cases && u.cases[id].Acknowledged()
            && u.cases[id] == t.cases[id].(acknowledgedAt := Some(now), acknowledgedBy := operator)
            && ScopeOf(u, id, Some(now)) == Some(t.cases[id].severity)
            && (forall x :: x in t.cases && x != id ==> x in u.cases && u.cases[x] == t.cases[x])
  {
  }

  /** Suppressing for a positive time holds a case for exactly that long; for any other
      time it lifts the deadlines at once. */
  lemma SuppressionHolds(t: Table, id: string, ttlSeconds: int, now: Instant, later: Instant)
    requires id in t.cases && (t.cases[id].covered ==> t.cases[id].independent) && now <= later
    ensures id in ApplyOp(t, SuppressCase(id, ttlSeconds), now).cases
    ensures Held(ApplyOp(t, SuppressCase(id, ttlSeconds), now).cases[id], later) <==>
              later < now + ttlSeconds * 1_000_000
  {
  }

  /** Expiring a suppression that is still running does nothing, and one that has run
      out leaves no deadline behind; it never lifts a hold that suppressing set. */
  lemma ExpiryKeepsHold(t: Table, id: string, now: Instant, later: Instant)
    requires id in t.cases && now <= later
    ensures var c, d := t.cases[id], ApplyOp(t, ExpireCase(id), now).cases[id];
            && (Held(d, later) ==> Held(c, later))
            && (c.suppressedUntil == c.snoozedUntil ==> (Held(d, later) <==> Held(c, later)))
            && (c.suppressedUntil.At? && c.suppressedUntil.instant > now ==> d == c)
            && (c.suppressedUntil.At? && c.suppressedUntil.instant <= now ==>
                  d == c.(suppressedUntil := Absent, snoozedUntil := Absent))
            && (c.suppressedUntil.Absent? && c.snoozedUntil.At? && c.snoozedUntil.instant <= now ==>
                  d == c.(snoozedUntil := Absent))
  {
  }

  /** Expiry lifts a hold that is still running exactly when the snooze outlasts a
      suppression that has run out. */
  lemma ExpiryLiftsIff(c: AtomicCase, now: Instant)
    requires c.covered ==> c.independent
    ensures Held(c, now) && !Held(ExpiredCase(c, now), now) <==>
              c.suppressedUntil.At? && c.suppressedUntil.instant <= now
              && c.snoozedUntil.At? && c.snoozedUntil.instant > now
  {
  }

  /** A reminder repeats the last report of a high, unacknowledged case that is not
      over, not held and not changed since, once six hours and the configured time have
      passed; with attention on, only of cases that attention does not cover. */
  lemma ReminderDueIff(c: AtomicCase, now: Instant, reassertSeconds: int, enabled: bool)
    ensures ShouldRemind(c, now, reassertSeconds, enabled) <==>
              && !(enabled && (c.source == Some("alertmanager") || c.source == Some("icinga2")))
              && c.severity == High && c.acknowledgedAt == None && c.acknowledgedBy == ""
              && c.status !in {CaseStatus.Resolved, Closed, CaseStatus.Expired, Linked, RecoveredPending}
              && Free(c, now)
              && c.lastReportedSignature == Some(Signature(c.caseId, c.generation, c.status, c.severity, c.signal,
                                                           c.resolutionReason, c.issueUrl))
              && c.lastReportedAt.Some?
              && now >= c.lastReportedAt.value + 21_600_000_000
              && now >= c.lastReportedAt.value + reassertSeconds * 1_000_000
  {
  }

  /** A legacy reminder waits for outstanding attention, and counts from the later of
      report and attention delivery. */
  lemma ProjectionCountsFromLater(c: AtomicCase, attention: Option<AttentionDelivery>, pending: bool)
    ensures c.source != Some("alertmanager") && c.source != Some("icinga2") ==>
              LegacyProjection(c, attention, pending) == Some(c)
    ensures c.source == Some("alertmanager") || c.source == Some("icinga2") ==>
              && (LegacyProjection(c, attention, pending) == None <==> pending)
              && (!pending ==>
                    var seen := LegacyProjection(c, attention, pending).value;
                    && seen == c.(lastReportedAt := seen.lastReportedAt)
                    && (attention.None? ==> seen.lastReportedAt == c.lastReportedAt)
                    && (attention.Some? ==>
                          && seen.lastReportedAt.Some? && attention.value.deliveredAt <= seen.lastReportedAt.value
                          && (c.lastReportedAt.Some? ==> c.lastReportedAt.value <= seen.lastReportedAt.value)
                          && (seen.lastReportedAt == c.lastReportedAt
                              || seen.lastReportedAt == Some(attention.value.deliveredAt))))
  {
  }

  /** A report stamps its case with the instant and the state that was reported. */
  lemma ReportIsRecorded(t: Table, id: string, signature: Signature, now: Instant)
    requires id in t.cases
    ensures var u := ApplyOp(t, MarkReported(id, signature), now);
            && id in u.cases
            && u.cases[id] == t.cases[id].(lastReportedAt := Some(now), lastReportedSignature := Some(signature))
            && u.scopes == t.scopes
            && (forall x :: x in t.cases && x != id ==> x in u.cases && u.cases[x] == t.cases[x])
  {
  }

  /** A new case is stored once; its id then belongs to it. */
  lemma OpeningIsRecorded(t: Table, c: AtomicCase, now: Instant)
    ensures NewCase(c) && c.caseId !in t.cases ==>
              ApplyOp(t, OpenCase(c), now) == Table(t.cases[c.caseId := c], t.scopes)
    ensures c.caseId in t.cases ==> ApplyOp(t, OpenCase(c), now) == t
    ensures NewCase(c) ==> c.status == Investigating && c.generation == 0 && c.acknowledgedAt == None
                           && c.acknowledgedBy == "" && Free(c, now) && c.lastReportedAt == None
  {
  }

  /** The writes of correlation, operators and issue links change the fields they name. */
  lemma OthersAreRecorded(t: Table, id: string, metaId: string, covered: bool, independent: bool, status: CaseStatus,
                          reason: string, url: string, now: Instant)
    requires id in t.cases
    ensures ApplyOp(t, Relate(id, metaId, covered, independent), now).cases ==
              t.cases[id := t.cases[id].(metaId := metaId, covered := covered, independent := independent)]
    ensures ApplyOp(t, Move(id, status, reason), now).cases ==
              t.cases[id := t.cases[id].(status := status, resolutionReason := reason)]
    ensures ApplyOp(t, LinkIssue(id, url), now).cases == t.cases[id := t.cases[id].(issueUrl := url)]
  {
  }
}
