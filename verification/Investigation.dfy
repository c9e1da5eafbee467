/** Investigation claims: a worker tests an old copy of a case and claims with a
    compare-and-set (app/cases/service.py, app/cases/postgres.py). */
module Investigation {
  import opened Types

  datatype Progress = NeverRun | InProgress | Queued | Complete | FailedRun

  /** The fields of a case that investigation reads and writes. */
  datatype Subject = Subject(
    caseId: string, fingerprint: string, status: CaseStatus, signal: string,
    diagnosis: string, lastInvestigatedAt: Option<Instant>, progress: Progress)

  datatype Policy = Policy(cooldownSeconds: nat, retrySeconds: nat)

  predicate BlockedStatus(s: CaseStatus) {
    s.Resolved? || s.Closed? || s.Expired? || s.Linked?
  }

  function InvestigationSignature(c: Subject): string {
    if c.signal != "" then c.signal else if c.fingerprint != "" then c.fingerprint else c.caseId
  }

  predicate ShouldInvestigate(c: Subject, now: Instant, p: Policy) {
    if BlockedStatus(c.status) then false
    else if c.progress.FailedRun? then
      c.lastInvestigatedAt.None? || now - c.lastInvestigatedAt.value >= Seconds(p.retrySeconds)
    else
      || c.lastInvestigatedAt.None? || c.diagnosis == ""
      || (c.signal != "" && c.diagnosis != c.signal)
      || now - c.lastInvestigatedAt.value >= Seconds(p.cooldownSeconds)
  }

  /** The store's claim: blocked statuses and any change to the compared fields refuse it. */
  predicate Claimable(row: Subject, snapshot: Subject) {
    && !BlockedStatus(row.status)
    && row.signal == snapshot.signal
    && row.diagnosis == snapshot.diagnosis
    && row.lastInvestigatedAt == snapshot.lastInvestigatedAt
  }

  /** The row after a claim, and after a result is recorded. */
  function Stamp(row: Subject, progress: Progress, now: Instant): Subject {
    row.(lastInvestigatedAt := Some(now), diagnosis := InvestigationSignature(row), progress := progress)
  }

  /** Once an investigation is over, an unchanged case that is not closed is investigated
      again exactly when the cooldown has passed, and after a failure the retry time. */
  lemma AgainAfterCooldownIff(row: Subject, progress: Progress, now: Instant, later: Instant, p: Policy)
    requires row.caseId != ""
    ensures ShouldInvestigate(Stamp(row, progress, now), later, p) <==>
              && row.status !in {CaseStatus.Resolved, Closed, CaseStatus.Expired, Linked}
              && later >= now + 1_000_000 * (if progress == FailedRun then p.retrySeconds else p.cooldownSeconds)
  {
  }

  /** A new signal is investigated at once, except that after a failure the retry time is
      waited for; so is a case that was never investigated. */
  lemma ChangedSignalIsDue(row: Subject, progress: Progress, now: Instant, signal: string, later: Instant, p: Policy)
    requires signal != "" && signal != InvestigationSignature(row)
    requires row.status !in {CaseStatus.Resolved, Closed, CaseStatus.Expired, Linked}
    ensures ShouldInvestigate(Stamp(row, progress, now).(signal := signal), later, p) <==>
              progress != FailedRun || later >= now + 1_000_000 * p.retrySeconds
    ensures ShouldInvestigate(row.(lastInvestigatedAt := None), later, p)
  {
  }

  /** What is investigated is known by its signal, without one by its fingerprint, and
      without either by its id. A result is filed under that and its instant. */
  lemma StampTells(row: Subject, progress: Progress, now: Instant)
    ensures var s := Stamp(row, progress, now);
            && s.progress == progress && s.lastInvestigatedAt == Some(now)
            && s == row.(progress := s.progress, lastInvestigatedAt := s.lastInvestigatedAt, diagnosis := s.diagnosis)
            && (row.signal != "" ==> s.diagnosis == row.signal)
            && (row.signal == "" && row.fingerprint != "" ==> s.diagnosis == row.fingerprint)
            && (row.signal == "" && row.fingerprint == "" ==> s.diagnosis == row.caseId)
  {
  }

  /** Immediately after a winning claim, the same snapshot wins again exactly when
      the first claim changed none of the compared fields. */
  lemma SecondClaimIff(row: Subject, snapshot: Subject, progress: Progress, now: Instant)
    requires Claimable(row, snapshot)
    ensures Claimable(Stamp(row, progress, now), snapshot)
       <==>
         && Some(now) == snapshot.lastInvestigatedAt
         && InvestigationSignature(snapshot.(fingerprint := row.fingerprint,
                                             caseId := row.caseId)) == snapshot.diagnosis
  {
  }

  predicate Later(stamp: Instant, last: Option<Instant>) {
    last.None? || stamp > last.value
  }

  /** The row and every version of it a worker may still hold. */
  datatype World = World(row: Subject, seen: set<Subject>)

  /** The writes to the row. A stamp is later than the one it replaces. */
  datatype Event =
    | Claim(snapshot: Subject, tested: Instant, now: Instant, progress: Progress)
    | Record(now: Instant, progress: Progress)
    | Observe(signal: string, status: CaseStatus)

  predicate Wins(w: World, e: Event, p: Policy) {
    && e.Claim? && e.snapshot in w.seen && e.tested <= e.now && Later(e.now, w.row.lastInvestigatedAt)
    && ShouldInvestigate(e.snapshot, e.tested, p)
    && Claimable(w.row, e.snapshot)
  }

  function Write(w: World, row: Subject): World {
    World(row, w.seen + {row})
  }

  function Apply(w: World, e: Event, p: Policy): World {
    match e
    case Claim(_, _, now, progress) => if Wins(w, e, p) then Write(w, Stamp(w.row, progress, now)) else w
    case Record(now, progress) =>
      if Later(now, w.row.lastInvestigatedAt) then Write(w, Stamp(w.row, progress, now)) else w
    case Observe(signal, status) => Write(w, w.row.(signal := signal, status := status))
  }

  function Run(w: World, events: seq<Event>, p: Policy): World {
    if events == [] then w else Apply(Run(w, events[..|events| - 1], p), events[|events| - 1], p)
  }

  predicate NotAfter(a: Option<Instant>, b: Option<Instant>) {
    a.None? || (b.Some? && a.value <= b.value)
  }

  /** Stamps only advance, and a stamp identifies the progress written with it. */
  ghost predicate Stamped(w: World) {
    && w.row in w.seen
    && forall v :: v in w.seen ==>
         && NotAfter(v.lastInvestigatedAt, w.row.lastInvestigatedAt)
         && (v.lastInvestigatedAt == w.row.lastInvestigatedAt ==> v.progress == w.row.progress)
  }

  lemma ApplyKeepsStamped(w: World, e: Event, p: Policy)
    requires Stamped(w)
    ensures Stamped(Apply(w, e, p))
    ensures NotAfter(w.row.lastInvestigatedAt, Apply(w, e, p).row.lastInvestigatedAt)
    ensures Wins(w, e, p) ==>
              Later(e.now, w.row.lastInvestigatedAt) && Apply(w, e, p).row.lastInvestigatedAt == Some(e.now)
  {
  }

  lemma {:induction false} RunStamped(row: Subject, events: seq<Event>, p: Policy)
    ensures Stamped(Run(World(row, {row}), events, p))
  {
    if events != [] {
      RunStamped(row, events[..|events| - 1], p);
      ApplyKeepsStamped(Run(World(row, {row}), events[..|events| - 1], p), events[|events| - 1], p);
    }
  }

  /** A claim that commits is one the policy allows for the stored row at the
      moment of the commit, although the worker tested an older copy earlier. */
  lemma ClaimIsJustified(row: Subject, events: seq<Event>, e: Event, p: Policy)
    requires Wins(Run(World(row, {row}), events, p), e, p)
    ensures ShouldInvestigate(Run(World(row, {row}), events, p).row, e.now, p)
  {
    RunStamped(row, events, p);
  }

  lemma {:induction false} StampAdvances(row: Subject, events: seq<Event>, i: nat, j: nat, p: Policy)
    requires i <= j <= |events|
    ensures NotAfter(Run(World(row, {row}), events[..i], p).row.lastInvestigatedAt,
                     Run(World(row, {row}), events[..j], p).row.lastInvestigatedAt)
  {
    if i < j {
      StampAdvances(row, events, i, j - 1, p);
      RunStamped(row, events[..j - 1], p);
      assert events[..j][..j - 1] == events[..j - 1];
      ApplyKeepsStamped(Run(World(row, {row}), events[..j - 1], p), events[j - 1], p);
    }
  }

  /** Of any number of workers holding the same snapshot at most one wins, however
      their claims interleave with other writes. */
  lemma OneWinner(row: Subject, events: seq<Event>, i: nat, j: nat, p: Policy)
    requires i < j < |events|
    requires Wins(Run(World(row, {row}), events[..i], p), events[i], p)
    requires Wins(Run(World(row, {row}), events[..j], p), events[j], p)
    ensures events[i].snapshot.lastInvestigatedAt != events[j].snapshot.lastInvestigatedAt
    ensures events[i].snapshot != events[j].snapshot
  {
    RunStamped(row, events[..i], p);
    ApplyKeepsStamped(Run(World(row, {row}), events[..i], p), events[i], p);
    assert events[..i + 1][..i] == events[..i];
    StampAdvances(row, events, i + 1, j, p);
  }

  /** The service and the store's row. */
  class InvestigationSlot {
    const policy: Policy
    var row: Subject

    constructor (policy: Policy, row: Subject)
      ensures this.policy == policy && this.row == row
    {
      this.policy, this.row := policy, row;
    }

    /** CaseService.claim_investigation: test the worker's copy, then compare and set. */
    method ClaimInvestigation(snapshot: Subject, tested: Instant, now: Instant, progress: Progress)
      returns (won: Option<Subject>)
      modifies this`row
      ensures won.Some? <==>
                && ShouldInvestigate(snapshot, tested, policy)
                && old(row).status !in {CaseStatus.Resolved, Closed, CaseStatus.Expired, Linked}
                && old(row).signal == snapshot.signal && old(row).diagnosis == snapshot.diagnosis
                && old(row).lastInvestigatedAt == snapshot.lastInvestigatedAt
      ensures row == if won.Some? then Stamp(old(row), progress, now) else old(row)
      ensures won.Some? ==> won.value == row
    {
      if !ShouldInvestigate(snapshot, tested, policy) {
        return None;
      }
      if BlockedStatus(row.status) {
        return None;
      }
      if row.signal != snapshot.signal || row.diagnosis != snapshot.diagnosis
         || row.lastInvestigatedAt != snapshot.lastInvestigatedAt {
        return None;
      }
      var signature := if row.signal != "" then row.signal else if row.fingerprint != "" then row.fingerprint
          else row.caseId;
      row := row.(lastInvestigatedAt := Some(now));
      row := row.(diagnosis := signature);
      row := row.(progress := progress);
      won := Some(row);
    }

    method RecordInvestigationResult(now: Instant, progress: Progress)
      modifies this`row
      ensures row == Stamp(old(row), progress, now)
    {
      row := row.(lastInvestigatedAt := Some(now));
      row := row.(diagnosis := InvestigationSignature(row));
      row := row.(progress := progress);
    }
  }
}
