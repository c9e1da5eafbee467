/** Values shared by every component: instants, severities, case statuses and the
    atomic case projection. */
module Types {

  datatype Option<+T> = None | Some(value: T)

  /** An instant, in microseconds: the resolution of both Python and PostgreSQL clocks. */
  type Instant = int

  function Seconds(n: int): int {
    n * 1_000_000
  }

  function Max(a: int, b: int): int {
    if a < b then b else a
  }

  function Min(a: int, b: int): int {
    if a < b then a else b
  }

  datatype Severity = Unknown | Low | Medium | High {
    function Rank(): (r: nat)
      ensures r <= 3
    {
      match this
      case Unknown => 0
      case Low => 1
      case Medium => 2
      case High => 3
    }
  }

  datatype CaseStatus =
    | Opened | Triaged | ContextRequested | HandoffRequested | HandoffInProgress
    | VerificationPending | Blocked | Failed | NeedsHuman
    | Investigating | WaitingApproval | RecoveredPending | Resolved | Expired | Linked | Closed

  /** A stored deadline: no text, a text both parsers accept, or a text both reject. */
  datatype Deadline = Absent | At(instant: Instant) | Rejected {
    predicate Future(now: Instant) {
      At? && instant > now
    }
  }

  const POSITIVE_CLEAN := "positive_clean_observation"

  /** The report state signature. The digest is taken to be injective, so a
      signature is the tuple that is hashed. */
  datatype Signature = Signature(
    caseId: string, generation: nat, status: CaseStatus, severity: Severity,
    signal: string, resolutionReason: string, issueUrl: string)

  datatype AtomicCase = AtomicCase(
    caseId: string,
    source: Option<string>,
    status: CaseStatus,
    severity: Severity,
    generation: nat,
    acknowledgedAt: Option<Instant>,
    acknowledgedBy: string,
    suppressedUntil: Deadline,
    snoozedUntil: Deadline,
    resolutionReason: string,
    covered: bool,
    independent: bool,
    metaId: string,
    signal: string,
    previousSignal: string,
    issueUrl: string,
    lastReportedAt: Option<Instant>,
    lastReportedSignature: Option<Signature>)
  {
    predicate Acknowledged() {
      acknowledgedAt.Some? || acknowledgedBy != ""
    }

    predicate Monitored() {
      source == Some("alertmanager") || source == Some("icinga2")
    }

    function ReportSignature(): Signature {
      Signature(caseId, generation, status, severity, signal, resolutionReason, issueUrl)
    }
  }
}
