/** Attention policy (app/cases/attention.py): which notification a case is owed,
    given the last attention delivery recorded for it. */
module Attention {
  import opened Types
  import opened Text

  datatype Phase = Firing | Recovered
  datatype Kind = New | Recurrence | Escalation | Recovery | Reminder

  /** The delivery projection kept beside the case, one per case. */
  datatype AttentionDelivery = AttentionDelivery(
    caseId: string, generation: nat, phase: Phase, severity: Severity,
    deliveredAt: Instant, sequence: nat)

  datatype AttentionRequest = AttentionRequest(
    kind: Kind, generation: nat, phase: Phase, severity: Severity,
    expectedSequence: nat, key: string)

  datatype Verdict = NotDue | Due(request: AttentionRequest) | WrongCase

  function PhaseText(p: Phase): string {
    match p
    case Firing => "firing"
    case Recovered => "recovered"
  }

  function SeverityText(s: Severity): string {
    match s
    case High => "HIGH"
    case Medium => "MEDIUM"
    case Low => "LOW"
    case Unknown => "UNKNOWN"
  }

  function KindText(k: Kind): string {
    match k
    case New => "new"
    case Recurrence => "recurrence"
    case Escalation => "escalation"
    case Recovery => "recovery"
    case Reminder => "reminder"
  }

  /** The durable identity of a request, used as the outbox idempotency key. */
  function RequestKey(caseId: string, generation: nat, phase: Phase, severity: Severity,
                      sequence: nat, kind: Kind): string
  {
    "attention:" + caseId + ":" + Decimal(generation) + ":" + PhaseText(phase) + ":" + SeverityText(severity)
    + ":" + Decimal(sequence) + ":" + KindText(kind)
  }

  function ReminderSpan(reminderSeconds: int): (span: int)
    ensures span >= Seconds(21600) && span >= Seconds(reminderSeconds)
  {
    Seconds(Max(21600, reminderSeconds))
  }

  predicate Retired(status: CaseStatus) {
    status.Closed? || status.Expired? || status.Linked? || status.RecoveredPending?
  }

  predicate Held(c: AtomicCase, now: Instant) {
    || (c.covered && !c.independent)
    || c.suppressedUntil.Future(now)
    || c.snoozedUntil.Future(now)
  }

  function FiringKind(c: AtomicCase, previous: Option<AttentionDelivery>, now: Instant,
                      reminderSeconds: int): Option<Kind>
  {
    if c.Acknowledged() then None
    else if previous.None? then Some(New)
    else if previous.value.phase.Recovered? then Some(Recurrence)
    else if c.severity.Rank() > previous.value.severity.Rank() then Some(Escalation)
    else if c.generation != previous.value.generation then Some(Recurrence)
    else if c.severity.High? && now - previous.value.deliveredAt >= ReminderSpan(reminderSeconds) then Some(Reminder)
    else None
  }

  function DueKind(c: AtomicCase, previous: Option<AttentionDelivery>, now: Instant,
                   reminderSeconds: int): Option<Kind>
  {
    if Retired(c.status) || Held(c, now) then None
    else if c.status.Resolved? then
      if c.resolutionReason != POSITIVE_CLEAN then None
      else if previous.Some? && previous.value.phase.Firing? then Some(Recovery)
      else None
    else FiringKind(c, previous, now, reminderSeconds)
  }

  function AttentionDue(c: AtomicCase, previous: Option<AttentionDelivery>, now: Instant,
                        reminderSeconds: int): Verdict
  {
    if previous.Some? && previous.value.caseId != c.caseId then WrongCase
    else
      match DueKind(c, previous, now, reminderSeconds)
      case None => NotDue
      case Some(kind) =>
        var phase := if c.status.Resolved? then Recovered else Firing;
        var sequence := if previous.Some? then previous.value.sequence else 0;
        // A recovery is announced at the severity of the firing notification it closes.
        var severity := if kind.Recovery? && previous.Some? then previous.value.severity else c.severity;
        Due(AttentionRequest(kind, c.generation, phase, severity, sequence,
                             RequestKey(c.caseId, c.generation, phase, severity, sequence, kind)))
  }

  // ----- the policy as a caller sees it

  /** A case that is closed, expired, linked or recovering, covered by a meta-case, or
      under a future deadline is owed nothing. */
  lemma NothingDueWhileQuiet(c: AtomicCase, previous: Option<AttentionDelivery>, now: Instant, reminderSeconds: int)
    requires previous.Some? ==> previous.value.caseId == c.caseId
    requires
      || c.status == Closed || c.status == CaseStatus.Expired || c.status == Linked || c.status == RecoveredPending
      || (c.covered && !c.independent)
      || (c.suppressedUntil.At? && c.suppressedUntil.instant > now)
      || (c.snoozedUntil.At? && c.snoozedUntil.instant > now)
    ensures AttentionDue(c, previous, now, reminderSeconds) == NotDue
  {
  }

  /** Neither covered nor under a future deadline. */
  predicate Free(c: AtomicCase, now: Instant) {
    && (c.covered ==> c.independent)
    && !(c.suppressedUntil.At? && c.suppressedUntil.instant > now)
    && !(c.snoozedUntil.At? && c.snoozedUntil.instant > now)
  }

  /** A resolved case is owed one recovery, at the severity of the firing notification
      it closes, exactly when it was resolved by a positive clean observation and that
      notification is the last one. */
  lemma RecoveryDueIff(c: AtomicCase, previous: Option<AttentionDelivery>, now: Instant, reminderSeconds: int)
    requires previous.Some? ==> previous.value.caseId == c.caseId
    requires c.status == CaseStatus.Resolved && Free(c, now)
    ensures AttentionDue(c, previous, now, reminderSeconds) ==
              if c.resolutionReason == "positive_clean_observation" && previous.Some? && previous.value.phase.Firing?
              then Due(AttentionRequest(Recovery, c.generation, Recovered, previous.value.severity,
                                        previous.value.sequence,
                                        RequestKey(c.caseId, c.generation, Recovered, previous.value.severity,
                                                   previous.value.sequence, Recovery)))
              else NotDue
  {
  }

  /** The request of an alarm. */
  function Alarm(c: AtomicCase, kind: Kind, sequence: nat): Verdict {
    Due(AttentionRequest(kind, c.generation, Firing, c.severity, sequence,
                         RequestKey(c.caseId, c.generation, Firing, c.severity, sequence, kind)))
  }

  /** In every other status an alarm that nobody acknowledged is announced when it is
      new, when it recurs after a recovery or in a new generation, and when it rises;
      a high one again after the reminder interval. */
  lemma AlarmDueIff(c: AtomicCase, previous: Option<AttentionDelivery>, now: Instant, reminderSeconds: int)
    requires previous.Some? ==> previous.value.caseId == c.caseId
    requires c.status in {Opened, Triaged, ContextRequested, HandoffRequested, HandoffInProgress, VerificationPending,
                          Blocked, Failed, NeedsHuman, Investigating, WaitingApproval}
    requires Free(c, now)
    ensures AttentionDue(c, previous, now, reminderSeconds) ==
              if c.acknowledgedAt.Some? || c.acknowledgedBy != "" then NotDue
              else if previous.None? then Alarm(c, New, 0)
              else
                var p := previous.value;
                if p.phase == Recovered then Alarm(c, Recurrence, p.sequence)
                else if Higher(c.severity, p.severity) then Alarm(c, Escalation, p.sequence)
                else if c.generation != p.generation then Alarm(c, Recurrence, p.sequence)
                else if c.severity == High && now - p.deliveredAt >= 21_600_000_000
                        && now - p.deliveredAt >= reminderSeconds * 1_000_000 then Alarm(c, Reminder, p.sequence)
                else NotDue
  {
  }

  /** The order of severities, pair by pair. */
  predicate Higher(a: Severity, b: Severity) {
    match a
    case High => b != High
    case Medium => b == Low || b == Unknown
    case Low => b == Unknown
    case Unknown => false
  }

  lemma WordsColonFree(p: Phase, s: Severity, k: Kind)
    ensures ColonFree(PhaseText(p)) && ColonFree(SeverityText(s)) && ColonFree(KindText(k))
  {
  }

  lemma PhaseInjective(p: Phase, q: Phase)
    requires PhaseText(p) == PhaseText(q)
    ensures p == q
  {
    assert PhaseText(p)[0] == PhaseText(q)[0];
  }

  lemma SeverityInjective(s: Severity, t: Severity)
    requires SeverityText(s) == SeverityText(t)
    ensures s == t
  {
    assert SeverityText(s)[0] == SeverityText(t)[0];
  }

  lemma KindInjective(k: Kind, l: Kind)
    requires KindText(k) == KindText(l)
    ensures k == l
  {
    assert KindText(k)[0] == KindText(l)[0];
    assert KindText(k)[2] == KindText(l)[2];
    if k != New && k != Escalation {
      assert KindText(k)[3] == KindText(l)[3];
    }
  }

  lemma KeyExample()
    ensures RequestKey("db:1", 2, Firing, High, 0, New) == "attention:db:1:2:firing:HIGH:0:new"
  {
    assert Decimal(2) == "2" && Decimal(0) == "0";
  }

  /** The key determines every field of the request and the case it is for, even
      when case ids themselves contain colons. */
  lemma RequestKeyInjective(c: string, g: nat, p: Phase, s: Severity, n: nat, k: Kind,
                            c': string, g': nat, p': Phase, s': Severity, n': nat, k': Kind)
    requires RequestKey(c, g, p, s, n, k) == RequestKey(c', g', p', s', n', k')
    ensures c == c' && g == g' && p == p' && s == s' && n == n' && k == k'
  {
    WordsColonFree(p, s, k);
    WordsColonFree(p', s', k');
    DecimalColonFree(g); DecimalColonFree(g'); DecimalColonFree(n); DecimalColonFree(n');
    var a0, b0 := "attention:" + c, "attention:" + c';
    var a1, b1 := a0 + ":" + Decimal(g), b0 + ":" + Decimal(g');
    var a2, b2 := a1 + ":" + PhaseText(p), b1 + ":" + PhaseText(p');
    var a3, b3 := a2 + ":" + SeverityText(s), b2 + ":" + SeverityText(s');
    var a4, b4 := a3 + ":" + Decimal(n), b3 + ":" + Decimal(n');
    LastFieldInjective(a4, KindText(k), b4, KindText(k'));
    LastFieldInjective(a3, Decimal(n), b3, Decimal(n'));
    LastFieldInjective(a2, SeverityText(s), b2, SeverityText(s'));
    LastFieldInjective(a1, PhaseText(p), b1, PhaseText(p'));
    LastFieldInjective(a0, Decimal(g), b0, Decimal(g'));
    assert c == a0[10..] == b0[10..] == c';
    DecimalInjective(g, g');
    DecimalInjective(n, n');
    PhaseInjective(p, p');
    SeverityInjective(s, s');
    KindInjective(k, k');
  }
}
