/** The candidate query of app/cases/postgres.py, evaluated with SQL's
    three-valued logic over the LEFT JOIN, and its agreement with the policy. */
module Candidates {
  import opened Types
  import opened Text
  import opened Attention
  import opened Ids
  import opened Paging

  /** An SQL boolean. */
  datatype Truth = True | False | Null

  function And(a: Truth, b: Truth): Truth {
    if a.False? || b.False? then False else if a.True? && b.True? then True else Null
  }

  function Or(a: Truth, b: Truth): Truth {
    if a.True? || b.True? then True else if a.False? && b.False? then False else Null
  }

  function Not(a: Truth): Truth {
    match a
    case True => False
    case False => True
    case Null => Null
  }

  function Lift(b: bool): Truth {
    if b then True else False
  }

  /** `a = b`, where None is the SQL NULL. */
  function Equals<T(==)>(a: Option<T>, b: Option<T>): Truth {
    if a.None? || b.None? then Null else Lift(a == b)
  }

  function Greater(a: Option<int>, b: Option<int>): Truth {
    if a.None? || b.None? then Null else Lift(a.value > b.value)
  }

  /** `a IS DISTINCT FROM b`: never NULL. */
  function Distinct<T(==)>(a: Option<T>, b: Option<T>): Truth {
    Lift(a != b)
  }

  function Coalesce<T>(a: Option<T>, default: T): Option<T> {
    if a.Some? then a else Some(default)
  }

  datatype RowKind = Atomic | Meta

  /** The stored JSON of a case. A None is a key that rows written before the
      field existed do not carry; `->>` reads it as NULL. */
  datatype CaseJson = CaseJson(
    source: Option<string>,
    severity: Option<Severity>,
    generation: Option<nat>,
    acknowledgedAt: Option<Option<Instant>>,
    acknowledgedBy: Option<string>,
    suppressedUntil: Option<Deadline>,
    snoozedUntil: Option<Deadline>,
    resolutionReason: Option<string>,
    covered: Option<bool>,
    independent: Option<bool>)

  datatype CaseRow = CaseRow(caseId: string, kind: RowKind, status: CaseStatus, payload: CaseJson)

  function GetOr<T>(o: Option<T>, default: T): T {
    if o.Some? then o.value else default
  }

  /** Loading a row: absent keys take the model's defaults. Fields the policy
      does not read come from `rest`. */
  function Load(row: CaseRow, rest: AtomicCase): AtomicCase {
    var p := row.payload;
    rest.(caseId := row.caseId, status := row.status,
      source := p.source,
      severity := GetOr(p.severity, Unknown),
      generation := GetOr(p.generation, 0),
      acknowledgedAt := GetOr(p.acknowledgedAt, None),
      acknowledgedBy := GetOr(p.acknowledgedBy, ""),
      suppressedUntil := GetOr(p.suppressedUntil, Absent),
      snoozedUntil := GetOr(p.snoozedUntil, Absent),
      resolutionReason := GetOr(p.resolutionReason, ""),
      covered := GetOr(p.covered, false),
      independent := GetOr(p.independent, false))
  }

  /** The timestamp a deadline text denotes; the CASE has no ELSE, so any other text is NULL. */
  function DeadlineValue(d: Option<Deadline>): Option<int> {
    if d.Some? && d.value.At? then Some(d.value.instant) else None
  }

  /** `CASE severity WHEN 'HIGH' THEN 3 … ELSE 0 END`: a NULL severity falls to the ELSE. */
  function RankCase(s: Option<Severity>): Option<int> {
    Some(if s == Some(High) then 3 else if s == Some(Medium) then 2 else if s == Some(Low) then 1 else 0)
  }

  /** `c.status NOT IN ('closed','expired','linked','recovered_pending')`. */
  function NotRetired(row: CaseRow): Truth {
    Not(Lift(row.status in {Closed, CaseStatus.Expired, Linked, RecoveredPending}))
  }

  function NotCovered(p: CaseJson): Truth {
    Or(Distinct(p.covered, Some(true)), Equals(p.independent, Some(true)))
  }

  /** `NOT EXISTS (SELECT 1 … WHERE deadline > now)`: rows whose test is NULL are not produced. */
  function NoLiveDeadline(p: CaseJson, now: Instant): Truth {
    Lift(!Greater(DeadlineValue(p.suppressedUntil), Some(now)).True?
         && !Greater(DeadlineValue(p.snoozedUntil), Some(now)).True?)
  }

  function RecoveryOwed(row: CaseRow, a: Option<AttentionDelivery>): Truth {
    And(Lift(row.status.Resolved?),
      And(Equals(row.payload.resolutionReason, Some(POSITIVE_CLEAN)),
          Equals(if a.Some? then Some(a.value.phase) else None, Some(Firing))))
  }

  /** Generations are compared as JSON text. */
  function GenerationChanged(p: CaseJson, a: Option<AttentionDelivery>): Truth {
    Not(Equals(Coalesce(if p.generation.Some? then Some(Decimal(p.generation.value)) else None, "0"),
               if a.Some? then Some(Decimal(a.value.generation)) else None))
  }

  function ReminderOwed(p: CaseJson, a: Option<AttentionDelivery>, now: Instant, reminderSeconds: int): Truth {
    And(Equals(p.severity, Some(High)),
        if a.None? then Null else Lift(a.value.deliveredAt <= now - ReminderSpan(reminderSeconds)))
  }

  function FiringOwed(row: CaseRow, a: Option<AttentionDelivery>, now: Instant, reminderSeconds: int): Truth {
    var p := row.payload;
    And(Not(Lift(row.status.Resolved?)),
      And(Equals(Coalesce(p.acknowledgedAt, None), Some(None)),
        And(Equals(Coalesce(p.acknowledgedBy, ""), Some("")),
          Or(Lift(a.None?),
            Or(Equals(if a.Some? then Some(a.value.phase) else None, Some(Recovered)),
              Or(Greater(RankCase(p.severity), RankCase(if a.Some? then Some(a.value.severity) else None)),
                Or(GenerationChanged(p, a), ReminderOwed(p, a, now, reminderSeconds))))))))
  }

  /** The WHERE clause of the candidate query for one row of the join. */
  function WhereClause(row: CaseRow, a: Option<AttentionDelivery>, after: string,
                       now: Instant, reminderSeconds: int): Truth
  {
    And(Lift(row.kind.Atomic?),
      And(Lift(Before(after, row.caseId)),
        And(Or(Equals(row.payload.source, Some("alertmanager")), Equals(row.payload.source, Some("icinga2"))),
          And(NotRetired(row),
            And(NotCovered(row.payload),
              And(NoLiveDeadline(row.payload, now),
                  Or(RecoveryOwed(row, a), FiringOwed(row, a, now, reminderSeconds))))))))
  }

  lemma GenerationText(p: CaseJson, a: AttentionDelivery)
    ensures GenerationChanged(p, Some(a)).True? <==> GetOr(p.generation, 0) != a.generation
  {
    var g := GetOr(p.generation, 0);
    assert Decimal(0) == "0";
    if Decimal(g) == Decimal(a.generation) {
      DecimalInjective(g, a.generation);
    }
  }

  lemma HeldAgrees(row: CaseRow, rest: AtomicCase, now: Instant)
    ensures And(NotCovered(row.payload), NoLiveDeadline(row.payload, now)).True? <==> !Held(Load(row, rest), now)
  {
  }

  lemma FiringAgrees(row: CaseRow, a: Option<AttentionDelivery>, rest: AtomicCase, now: Instant, reminderSeconds: int)
    requires !row.status.Resolved?
    ensures FiringOwed(row, a, now, reminderSeconds).True?
            <==> FiringKind(Load(row, rest), a, now, reminderSeconds).Some?
  {
    if a.Some? {
      GenerationText(row.payload, a.value);
    }
  }

  /** The query selects exactly the monitored atomic cases past the cursor for
      which the policy returns a request, whatever keys the stored row lacks. */
  lemma QueryAgreesWithPolicy(row: CaseRow, a: Option<AttentionDelivery>, rest: AtomicCase,
                              after: string, now: Instant, reminderSeconds: int)
    requires a.Some? ==> a.value.caseId == row.caseId
    ensures WhereClause(row, a, after, now, reminderSeconds).True?
       <==> row.kind.Atomic? && Before(after, row.caseId) && Load(row, rest).Monitored()
            && AttentionDue(Load(row, rest), a, now, reminderSeconds).Due?
  {
    HeldAgrees(row, rest, now);
    if !row.status.Resolved? {
      FiringAgrees(row, a, rest, now, reminderSeconds);
    }
  }

  function LastOf(attention: map<string, AttentionDelivery>, id: string): Option<AttentionDelivery> {
    if id in attention then Some(attention[id]) else None
  }

  /** The cases the policy owes a request, told without the query. */
  ghost function OwedIds(rows: map<string, CaseRow>, attention: map<string, AttentionDelivery>, rest: AtomicCase,
                         now: Instant, reminderSeconds: int): set<string>
  {
    set id | id in rows && rows[id].kind.Atomic? && Load(rows[id], rest).Monitored()
             && AttentionDue(Load(rows[id], rest), LastOf(attention, id), now, reminderSeconds).Due?
  }

  /** The whole query: filter by the clause, order by id, limit. Its page is a page
      of exactly the cases that are owed a request. */
  method SelectCandidates(rows: map<string, CaseRow>, attention: map<string, AttentionDelivery>, ghost rest: AtomicCase,
                          after: string, limit: int, now: Instant, reminderSeconds: int) returns (page: seq<string>)
    requires forall id :: id in rows ==> rows[id].caseId == id
    requires forall id :: id in attention ==> attention[id].caseId == id
    ensures IsPage(page, OwedIds(rows, attention, rest, now, reminderSeconds), after, PageLimit(limit))
  {
    var chosen := set id | id in rows
        && WhereClause(rows[id], LastOf(attention, id), after, now, reminderSeconds).True?;
    ghost var owed := OwedIds(rows, attention, rest, now, reminderSeconds);
    forall id ensures id in chosen <==> id in owed && Before(after, id) {
      if id in rows {
        QueryAgreesWithPolicy(rows[id], LastOf(attention, id), rest, after, now, reminderSeconds);
      }
    }
    page := SelectPage(chosen, after, PageLimit(limit));
    SamePage(page, chosen, owed, after, PageLimit(limit));
  }

  /** A page depends on the candidates past the cursor only. */
  lemma SamePage(page: seq<string>, chosen: set<string>, owed: set<string>, after: string, limit: nat)
    requires IsPage(page, chosen, after, limit)
    requires forall id :: id in chosen <==> id in owed && Before(after, id)
    ensures IsPage(page, owed, after, limit)
  {
  }

  /** The row a case is written as: every key is present. */
  function RowOf(c: AtomicCase): CaseRow {
    CaseRow(c.caseId, Atomic, c.status,
            CaseJson(c.source, Some(c.severity), Some(c.generation), Some(c.acknowledgedAt), Some(c.acknowledgedBy),
                     Some(c.suppressedUntil), Some(c.snoozedUntil), Some(c.resolutionReason), Some(c.covered),
                     Some(c.independent)))
  }

  /** Writing and loading a case keeps all that the policy reads. */
  lemma RowRoundTrip(c: AtomicCase, rest: AtomicCase, a: Option<AttentionDelivery>, now: Instant, reminderSeconds: int)
    ensures Load(RowOf(c), c) == c
    ensures Load(RowOf(c), rest).Monitored() == c.Monitored()
    ensures AttentionDue(Load(RowOf(c), rest), a, now, reminderSeconds) == AttentionDue(c, a, now, reminderSeconds)
  {
    var loaded := Load(RowOf(c), rest);
    assert DueKind(loaded, a, now, reminderSeconds) == DueKind(c, a, now, reminderSeconds);
  }
}
