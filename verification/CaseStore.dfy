/** The case store (app/cases/postgres.py): its rows as mutable fields, and one
    method per transaction. */
module CaseStores {
  import opened Types
  import opened Attention
  import opened Lifecycle
  import opened Outbox
  import opened Paging
  import opened Candidates

  datatype LeaseResult = Leased(token: Token) | Refused | InvalidLease
  datatype Completion = Committed(intent: Intent) | Lost | InvalidCompletion

  /** The cases the candidate query selects, whatever the cursor. */
  ghost function DueIds(db: Db, now: Instant, reminderSeconds: int): set<string> {
    set id | id in db.table.cases && db.table.cases[id].Monitored()
             && AttentionDue(db.table.cases[id], Previous(db, id), now, reminderSeconds).Due?
  }

  ghost function RemindableIds(db: Db): set<string> {
    set id | id in db.table.cases && db.table.cases[id].severity.High? && db.table.cases[id].lastReportedAt.Some?
  }

  /** The reminder query leaves out no case that a reminder may be due for, and lists high,
      reported cases only. */
  lemma RemindersAreListed(db: Db, id: string, now: Instant, reassertSeconds: int, enabled: bool)
    requires id in db.table.cases
    ensures ShouldRemind(db.table.cases[id], now, reassertSeconds, enabled) ==> id in RemindableIds(db)
    ensures id in RemindableIds(db)
            <==> db.table.cases[id].severity == High && db.table.cases[id].lastReportedAt != None
  {
  }

  predicate OldestFirst(rows: seq<Intent>) {
    forall i, j :: 0 <= i < j < |rows| ==> rows[i].createdAt <= rows[j].createdAt
  }

  /** The rows under distinct ids, in order. */
  predicate RowsOf(outbox: map<string, Intent>, ids: seq<string>, rows: seq<Intent>) {
    && |ids| == |rows|
    && (forall i :: 0 <= i < |ids| ==> ids[i] in outbox && outbox[ids[i]] == rows[i])
    && (forall i, j :: 0 <= i < j < |ids| ==> ids[i] != ids[j])
  }

  lemma RowsDistinct(outbox: map<string, Intent>, ids: seq<string>, rows: seq<Intent>)
    requires RowsOf(outbox, ids, rows) && forall id :: id in outbox ==> outbox[id].id == id
    ensures forall i, j :: 0 <= i < j < |rows| ==> rows[i] != rows[j]
  {
    forall i, j | 0 <= i < j < |rows| ensures rows[i] != rows[j] {
      assert outbox[ids[i]].id != outbox[ids[j]].id;
    }
  }

  lemma RowsOfOneMore(outbox: map<string, Intent>, ids: seq<string>, rows: seq<Intent>, id: string)
    requires RowsOf(outbox, ids, rows) && id in outbox && id !in ids
    ensures RowsOf(outbox, ids + [id], rows + [outbox[id]])
  {
  }

  lemma AppendOldest(rows: seq<Intent>, row: Intent)
    requires OldestFirst(rows) && forall r :: r in rows ==> r.createdAt <= row.createdAt
    ensures OldestFirst(rows + [row])
    ensures forall r :: r in rows + [row] <==> r in rows || r == row
  {
  }

  lemma {:induction false} OldestExists(outbox: map<string, Intent>, ids: set<string>) returns (oldest: string)
    requires ids != {} && ids <= outbox.Keys
    ensures oldest in ids && forall x :: x in ids ==> outbox[oldest].createdAt <= outbox[x].createdAt
    decreases ids
  {
    var first :| first in ids;
    var others := ids - {first};
    assert forall x :: x in ids ==> x == first || x in others;
    oldest := first;
    if others != {} {
      var next := OldestExists(outbox, others);
      oldest := if outbox[next].createdAt < outbox[first].createdAt then next else first;
    }
  }

  predicate AttentionKeyed(db: Db) {
    forall c :: c in db.attention ==> db.attention[c].caseId == c
  }

  /** The rows the query owes a request are the cases the policy owes one. */
  lemma OwedAreDue(db: Db, rows: map<string, CaseRow>, rest: AtomicCase, at: Instant, reminderSeconds: int)
    requires rows.Keys == db.table.cases.Keys && forall id :: id in rows ==> rows[id] == RowOf(db.table.cases[id])
    ensures OwedIds(rows, db.attention, rest, at, reminderSeconds) == DueIds(db, at, reminderSeconds)
  {
    forall id | id in rows
      ensures id in OwedIds(rows, db.attention, rest, at, reminderSeconds) <==> id in DueIds(db, at, reminderSeconds)
    {
      RowRoundTrip(db.table.cases[id], rest, LastOf(db.attention, id), at, reminderSeconds);
    }
  }

  class CaseStore {
    var cases: map<string, AtomicCase>
    var scopes: map<string, AckScope>
    var outbox: map<string, Intent>
    var keys: map<string, string>
    var leases: map<string, Lease>
    var attention: map<string, AttentionDelivery>
    var now: Instant

    ghost function Contents(): Db
      reads this
    {
      Db(Table(cases, scopes), outbox, keys, leases, attention)
    }

    constructor (now: Instant)
      ensures Contents() == Db(Table(map[], map[]), map[], map[], map[], map[]) && this.now == now
    {
      cases, scopes, outbox, keys, leases, attention := map[], map[], map[], map[], map[], map[];
      this.now := now;
    }

    // ----- case rows

    method UpsertCase(c: AtomicCase)
      modifies this`cases
      ensures cases == old(cases)[c.caseId := c]
    {
      cases := cases[c.caseId := c];
    }

    method RecordAcknowledgementScope(caseId: string, at: Option<Instant>, severity: Severity)
      modifies this`scopes
      ensures scopes == old(scopes)[caseId := AckScope(at, severity)]
      ensures ScopeOf(Contents().table, caseId, at) == Some(severity)
    {
      scopes := scopes[caseId := AckScope(at, severity)];
    }

    /** A scope recorded for another acknowledgement time does not count. */
    method AcknowledgementScope(caseId: string, at: Option<Instant>) returns (severity: Option<Severity>)
      ensures severity == ScopeOf(Contents().table, caseId, at)
    {
      if caseId in scopes && scopes[caseId].at == at {
        return Some(scopes[caseId].severity);
      }
      return None;
    }

    // ----- outbox

    /** The first intent of a key wins and is returned. A new key under an id that is
        taken is the database's error. */
    method EnqueueOutbox(intent: Intent) returns (stored: Option<Intent>)
      requires Indexed(Contents())
      modifies this`outbox, this`keys
      ensures Contents() == Enqueue(old(Contents()), intent) && Indexed(Contents())
      ensures stored.None? <==> intent.key !in old(keys) && intent.id in old(outbox)
      ensures stored.Some? ==>
                intent.key in keys && keys[intent.key] in outbox && outbox[keys[intent.key]] == stored.value
                               && stored.value.key == intent.key
      ensures old(intent.key in keys) ==> stored == Some(old(outbox[keys[intent.key]])) && Contents() == old(Contents())
      ensures stored.Some? && !old(intent.key in keys) ==> stored.value == intent
    {
      if intent.key in keys {
        return Some(outbox[keys[intent.key]]);
      }
      if intent.id in outbox {
        return None;
      }
      outbox := outbox[intent.id := intent];
      keys := keys[intent.key := intent.id];
      stored := Some(intent);
    }

    method UpdateOutboxIfStatus(intent: Intent, expected: OutboxStatus, token: Option<Token>)
      returns (stored: Option<Intent>)
      modifies this`outbox
      ensures stored == if Matches(old(Contents()), intent.id, expected, token) then Some(intent) else None
      ensures Contents() == if stored.Some? then Write(old(Contents()), intent) else old(Contents())
    {
      if intent.id !in outbox {
        return None;
      }
      var current := outbox[intent.id];
      if current.status != expected {
        return None;
      }
      if token.Some? && current.token != token.value {
        return None;
      }
      outbox := outbox[intent.id := intent];
      stored := Some(intent);
    }

    method Oldest(ids: set<string>) returns (id: string)
      requires ids != {} && ids <= outbox.Keys
      ensures id in ids && forall x :: x in ids ==> outbox[id].createdAt <= outbox[x].createdAt
    {
      ghost var oldest := OldestExists(outbox, ids);
      id :| id in ids && forall x :: x in ids ==> outbox[id].createdAt <= outbox[x].createdAt;
    }

    /** Every stored row in a status, once each, oldest first. */
    method ListOutbox(status: OutboxStatus) returns (rows: seq<Intent>, ghost ids: seq<string>)
      ensures forall r :: r in rows ==> r in outbox.Values && r.status == status
      ensures forall id :: id in outbox && outbox[id].status == status ==> outbox[id] in rows
      ensures OldestFirst(rows) && RowsOf(outbox, ids, rows)
    {
      rows, ids := [], [];
      var rest := set id | id in outbox && outbox[id].status == status;
      while rest != {}
        invariant forall id :: id in rest ==> id in outbox && outbox[id].status == status
        invariant forall r :: r in rows ==> r in outbox.Values && r.status == status
        invariant forall id :: id in outbox && outbox[id].status == status && id !in rest ==> outbox[id] in rows
        invariant RowsOf(outbox, ids, rows) && forall id :: id in rest ==> id !in ids
        invariant OldestFirst(rows) && forall r, id :: r in rows && id in rest ==> r.createdAt <= outbox[id].createdAt
        decreases rest
      {
        var id := Oldest(rest);
        AppendOldest(rows, outbox[id]);
        RowsOfOneMore(outbox, ids, rows, id);
        rows, ids := rows + [outbox[id]], ids + [id];
        rest := rest - {id};
      }
    }

    method HasPendingAttention(caseId: string) returns (pending: bool)
      ensures pending <==> PendingAttention(Contents(), caseId)
    {
      var rest := outbox.Keys;
      while rest != {}
        invariant rest <= outbox.Keys
        invariant PendingAttention(Contents(), caseId) ==>
                    exists id :: id in rest && outbox[id].caseId == caseId && outbox[id].kind.ReportIntent?
                      && (outbox[id].status.Pending? || outbox[id].status.Failed? || outbox[id].status.InProgress?)
                      && outbox[id].Attends()
        decreases rest
      {
        var id :| id in rest;
        var row := outbox[id];
        if row.caseId == caseId && row.kind.ReportIntent? && row.Attends()
           && (row.status.Pending? || row.status.Failed? || row.status.InProgress?) {
          return true;
        }
        rest := rest - {id};
      }
      return false;
    }

    // ----- attention

    method GetAttention(caseId: string) returns (previous: Option<AttentionDelivery>)
      ensures previous == Previous(Contents(), caseId)
    {
      if caseId in attention {
        return Some(attention[caseId]);
      }
      return None;
    }

    method ClaimAttention(intent: Intent, expectedSequence: nat, leaseSeconds: int, drawn: Token)
      returns (r: LeaseResult)
      modifies this`leases
      ensures r.InvalidLease? <==> intent.token == NO_TOKEN || !(1 <= leaseSeconds <= 300)
      ensures !r.InvalidLease? ==> (r.Leased? <==> CanLease(old(Contents()), now, intent, expectedSequence))
      ensures r.Leased? ==> r.token == drawn
      ensures Contents() == if r.Leased? then GrantLease(old(Contents()), now, intent, leaseSeconds, drawn)
              else old(Contents())
    {
      if intent.token == NO_TOKEN || leaseSeconds < 1 || leaseSeconds > 300 {
        return InvalidLease;
      }
      if intent.caseId !in cases {
        return Refused;
      }
      if intent.id !in outbox {
        return Refused;
      }
      var row := outbox[intent.id];
      if row.caseId != intent.caseId || row.status != InProgress || row.token != intent.token {
        return Refused;
      }
      var previous := GetAttention(intent.caseId);
      if (if previous.Some? then previous.value.sequence else 0) != expectedSequence {
        return Refused;
      }
      if intent.caseId in leases && leases[intent.caseId].expiresAt > now {
        return Refused;
      }
      leases := leases[intent.caseId := Lease(drawn, intent.id, intent.token, now + Seconds(leaseSeconds))];
      r := Leased(drawn);
    }

    method ReleaseAttention(caseId: string, lease: Token)
      modifies this`leases
      ensures Contents() == ReleaseLease(old(Contents()), caseId, lease)
    {
      if caseId in leases && leases[caseId].token == lease {
        leases := leases - {caseId};
      }
    }

    /** The report fields, the delivery, the outbox row and the lease change
        together or not at all. */
    method CompleteAttention(intent: Intent, delivery: AttentionDelivery, expectedSequence: nat, claim: Token,
                             lease: Token, report: Option<Signature>) returns (r: Completion)
      modifies this`cases, this`attention, this`outbox, this`leases
      ensures r.InvalidCompletion? <==> !WellFormedCompletion(intent, delivery, expectedSequence)
      ensures r.Committed? <==> WellFormedCompletion(intent, delivery, expectedSequence)
                                && CanComplete(old(Contents()), now, intent, delivery, expectedSequence, claim, lease)
      ensures r.Committed? ==> r.intent == intent
      ensures Contents() == if r.Committed? then Completed(old(Contents()), intent, delivery, report)
              else old(Contents())
    {
      if !intent.status.Succeeded? || intent.caseId != delivery.caseId || delivery.sequence != expectedSequence + 1 {
        return InvalidCompletion;
      }
      if delivery.caseId !in cases || intent.id !in outbox {
        return Lost;
      }
      var row := outbox[intent.id];
      if row.caseId != delivery.caseId || row.status != InProgress || row.token != claim {
        return Lost;
      }
      var previous := GetAttention(delivery.caseId);
      if (if previous.Some? then previous.value.sequence else 0) != expectedSequence {
        return Lost;
      }
      if delivery.caseId !in leases {
        return Lost;
      }
      var held := leases[delivery.caseId];
      if held.token != lease || held.outboxId != intent.id || held.claim != claim || held.expiresAt <= now {
        return Lost;
      }
      if report.Some? {
        cases := cases[delivery.caseId := ReportedCase(cases[delivery.caseId], report.value, delivery.deliveredAt)];
      }
      attention := attention[delivery.caseId := delivery];
      outbox := outbox[intent.id := intent];
      leases := leases - {delivery.caseId};
      r := Committed(intent);
    }

    // ----- candidate queries

    /** The candidate query over the stored rows. */
    method ListAttentionCandidates(after: string, limit: int, at: Instant, reminderSeconds: int)
      returns (page: seq<string>)
      requires KeyedById(Contents().table) && AttentionKeyed(Contents())
      ensures IsPage(page, DueIds(Contents(), at, reminderSeconds), after, PageLimit(limit))
      ensures forall id :: id in page ==> id in cases
    {
      if cases == map[] {
        assert DueIds(Contents(), at, reminderSeconds) == {};
        return [];
      }
      var rows := map id | id in cases :: RowOf(cases[id]);
      ghost var some :| some in cases;
      ghost var rest := cases[some];
      page := SelectCandidates(rows, attention, rest, after, limit, at, reminderSeconds);
      OwedAreDue(Contents(), rows, rest, at, reminderSeconds);
    }

    method ListReminderCandidates(after: string, limit: int) returns (page: seq<string>)
      ensures IsPage(page, RemindableIds(Contents()), after, PageLimit(limit))
      ensures forall id :: id in page ==> id in cases
    {
      var found := set id | id in cases && cases[id].severity.High? && cases[id].lastReportedAt.Some?;
      page := SelectPage(found, after, PageLimit(limit));
      assert found == RemindableIds(Contents());
    }
  }
}
