/** The case service (app/cases/service.py) over the case store. Each method runs
    inside the case's write guard, so it sees the stored row. */
module CaseServices {
  import opened Types
  import opened Lifecycle
  import opened Outbox
  import opened Delivery
  import opened CaseStores
  import opened Deployments

  /** The intent a report request enqueues. `digest` is the text of the signature
      and `since` that of the last report time. */
  function ReportRequest(id: string, c: AtomicCase, signature: Signature, digest: string, since: string,
                         now: Instant): (i: Intent)
    ensures NewIntent(i)
  {
    var reminds := c.lastReportedAt.Some? && c.lastReportedSignature == Some(signature);
    var key := "report:" + c.caseId + ":" + digest + if reminds then ":reminder:" + since else "";
    assert key[0] == 'r';
    Intent(id, ReportIntent, c.caseId, key, Some(signature), Pending, 0, NO_TOKEN, None, now, None,
           Payload(None, if reminds then c.lastReportedAt else None, Sent, None))
  }

  /** A row suppressed for a reason that no longer holds is reopened. */
  predicate ReportEligibleAgain(stored: Intent, remindable: bool, allowed: bool) {
    stored.status.Succeeded?
    && ((stored.payload.suppressed.ReminderNoLongerDue? && remindable)
        || (stored.payload.suppressed.ReportVerbosity? && allowed))
  }

  /** A report is reopened exactly when it was suppressed as a reminder and may remind again,
      or was withheld by a verbosity that now lets it through. */
  lemma ReopenedReportIff(v: Intent, remindable: bool, allowed: bool)
    ensures ReportEligibleAgain(v, remindable, allowed) <==>
              && v.status == Succeeded
              && match v.payload.suppressed
                 case ReminderNoLongerDue => remindable
                 case ReportVerbosity => allowed
                 case Sent => false
                 case NoLongerDue => false
                 case AttentionVerbosity => false
  {
  }

  /** A request begun at `w` and over at `u`: the row of its key as it is found, or,
      when it was suppressed and is eligible again, reopened at `mid`, whatever else
      its row says there, as long as that has succeeded. A row that no longer has is
      returned as it is at the end. */
  predicate Requests(w: World, mid: World, u: World, i: Intent, row: Intent, remindable: bool, allowed: bool) {
    && Indexed(w.db)
    && var first := FirstRow(w.db, i);
       if !ReportEligibleAgain(first, remindable, allowed)
       then mid == w && u == Apply(w, OutboxWrite(EnqueueIntent(i))) && row == first
       else if Matches(mid.db, first.id, Succeeded, None)
       then u == Apply(mid, OutboxWrite(ReopenReport(first))) && row == Reopened(first, mid.now)
       else Indexed(u.db) && i.key in u.db.keys && row == FirstRow(u.db, i)
  }

  class CaseService {
    const store: CaseStore
    const reassertSeconds: int
    const attentionEnabled: bool

    constructor (store: CaseStore, reassertSeconds: int, attentionEnabled: bool)
      ensures this.store == store && this.reassertSeconds == reassertSeconds
              && this.attentionEnabled == attentionEnabled
    {
      this.store, this.reassertSeconds, this.attentionEnabled := store, reassertSeconds, attentionEnabled;
    }

    /** The severity a case's acknowledgement covers; an acknowledgement without a
        scope is given one at the last known severity. */
    method CoveredSeverity(c: AtomicCase) returns (covered: Severity)
      requires c.caseId in store.cases && store.cases[c.caseId] == c
      modifies store`scopes
      ensures covered == Covered(old(store.Contents().table), c.caseId)
      ensures store.scopes ==
                if c.Acknowledged() && ScopeOf(old(store.Contents().table), c.caseId, c.acknowledgedAt).None?
                then old(store.scopes)[c.caseId := AckScope(c.acknowledgedAt, c.severity)] else old(store.scopes)
    {
      covered := c.severity;
      if c.Acknowledged() {
        var scope := store.AcknowledgementScope(c.caseId, c.acknowledgedAt);
        if scope.None? {
          store.RecordAcknowledgementScope(c.caseId, c.acknowledgedAt, c.severity);
        } else {
          covered := scope.value;
        }
      }
    }

    /** The field writes of a firing observation, in order. */
    static method FiredFields(found: AtomicCase, covered: Severity, o: Observation) returns (c: AtomicCase)
      ensures c == Fired(found, covered, o)
    {
      c := found;
      if Revives(c.status) || (c.Acknowledged() && o.severity.Rank() > covered.Rank()) {
        c := c.(acknowledgedAt := None, acknowledgedBy := "", generation := c.generation + 1);
      }
      if c.signal != o.signal {
        c := c.(previousSignal := c.signal);
      }
      c := c.(signal := o.signal, severity := o.severity);
      if Revives(c.status) {
        c := c.(status := Investigating);
      }
      c := c.(resolutionReason := "");
    }

    method UpdateUnhealthy(id: string, o: Observation) returns (found: bool)
      requires KeyedById(store.Contents().table)
      modifies store
      ensures store.now == old(store.now)
      ensures found <==> old(id in store.cases)
      ensures store.Contents() ==
                if found then old(store.Contents()).(table := ObserveFiring(old(store.Contents().table), id, o))
                else old(store.Contents())
    {
      if id !in store.cases {
        return false;
      }
      found := true;
      var c := store.cases[id];
      var covered := CoveredSeverity(c);
      c := FiredFields(c, covered, o);
      store.UpsertCase(c);
    }

    method RecordClean(id: string, o: Observation) returns (found: bool)
      requires KeyedById(store.Contents().table)
      modifies store
      ensures store.now == old(store.now)
      ensures found <==> old(id in store.cases)
      ensures store.Contents().table.cases ==
                if found then old(store.cases)[id := Cleaned(old(store.cases)[id], o)] else old(store.cases)
      ensures store.Contents() == old(store.Contents()).(table := old(store.Contents()).table.(cases := store.cases))
    {
      if id !in store.cases {
        return false;
      }
      found := true;
      var c := store.cases[id];
      if o.PositiveClean() {
        c := c.(status := CaseStatus.Resolved);
        c := c.(resolutionReason := POSITIVE_CLEAN);
      }
      store.UpsertCase(c);
    }

    /** An observation of a known case. */
    method Observe(id: string, o: Observation) returns (found: bool)
      requires KeyedById(store.Contents().table)
      modifies store
      ensures store.now == old(store.now)
      ensures found <==> old(id in store.cases)
      ensures store.Contents() ==
                old(store.Contents()).(table := ApplyOp(old(store.Contents().table), ObserveCase(id, o), store.now))
    {
      match o.status
      case FiringSeen => found := UpdateUnhealthy(id, o);
      case CleanSeen => found := RecordClean(id, o);
      case ResolvedSeen => found := RecordClean(id, o);
      case UnknownSeen => found := id in store.cases;
    }

    method Ack(id: string, operator: string) returns (found: bool)
      requires KeyedById(store.Contents().table)
      modifies store
      ensures store.now == old(store.now)
      ensures found <==> old(id in store.cases)
      ensures store.Contents() ==
                old(store.Contents()).(table := ApplyOp(old(store.Contents().table), AckCase(id, operator), store.now))
    {
      if id !in store.cases {
        return false;
      }
      found := true;
      var c := store.cases[id];
      c := c.(acknowledgedBy := operator);
      c := c.(acknowledgedAt := Some(store.now));
      store.RecordAcknowledgementScope(id, Some(store.now), c.severity);
      store.UpsertCase(c);
    }

    method Suppress(id: string, ttlSeconds: int) returns (found: bool)
      requires KeyedById(store.Contents().table)
      modifies store
      ensures store.now == old(store.now)
      ensures found <==> old(id in store.cases)
      ensures store.Contents() ==
                old(store.Contents()).(
                  table := ApplyOp(old(store.Contents().table), SuppressCase(id, ttlSeconds), store.now))
    {
      if id !in store.cases {
        return false;
      }
      found := true;
      var c := store.cases[id];
      var until := Absent;
      if ttlSeconds > 0 {
        until := At(store.now + Seconds(ttlSeconds));
      }
      c := c.(suppressedUntil := until);
      c := c.(snoozedUntil := c.suppressedUntil);
      store.UpsertCase(c);
    }

    method ExpireSuppression(id: string) returns (found: bool)
      requires KeyedById(store.Contents().table)
      modifies store
      ensures store.now == old(store.now)
      ensures found <==> old(id in store.cases)
      ensures store.Contents() ==
                old(store.Contents()).(table := ApplyOp(old(store.Contents().table), ExpireCase(id), store.now))
    {
      if id !in store.cases {
        return false;
      }
      found := true;
      var c := store.cases[id];
      var expiry := if c.suppressedUntil.Absent? then c.snoozedUntil else c.suppressedUntil;
      if !expiry.At? || expiry.instant > store.now {
        assert store.cases == store.cases[id := c];
        return;
      }
      c := c.(suppressedUntil := Absent);
      c := c.(snoozedUntil := Absent);
      store.UpsertCase(c);
    }

    method RecordReported(id: string, signature: Signature) returns (found: bool)
      requires KeyedById(store.Contents().table)
      modifies store
      ensures store.now == old(store.now)
      ensures found <==> old(id in store.cases)
      ensures store.Contents() ==
                old(store.Contents()).(
                  table := ApplyOp(old(store.Contents().table), MarkReported(id, signature), store.now))
    {
      if id !in store.cases {
        return false;
      }
      found := true;
      var c := store.cases[id];
      c := c.(lastReportedAt := Some(store.now));
      c := c.(lastReportedSignature := Some(signature));
      store.UpsertCase(c);
    }

    /** The case as a legacy reminder sees it. Outstanding attention is read first and
        the last delivery second, with other workers in between. */
    method LegacyReminderProjection(env: Deployment, c: AtomicCase) returns (seen: Option<AtomicCase>)
      requires env.Valid() && env.store == store
      modifies env`nextToken, env`world, store
      ensures env.Valid() && env.leads(old(env.world), env.world)
      ensures seen == LegacyProjection(c, Previous(env.world.db, c.caseId),
                                       PendingAttention(old(env.world).db, c.caseId))
    {
      if !c.Monitored() {
        return Some(c);
      }
      var pending := store.HasPendingAttention(c.caseId);
      if pending {
        return None;
      }
      env.Interfere({});
      var attention := store.GetAttention(c.caseId);
      if attention.Some? && (c.lastReportedAt.None? || attention.value.deliveredAt > c.lastReportedAt.value) {
        return Some(c.(lastReportedAt := Some(attention.value.deliveredAt)));
      }
      return Some(c);
    }

    predicate Remindable(c: AtomicCase)
      reads store`now
    {
      ShouldRemind(c, store.now, reassertSeconds, attentionEnabled)
    }

    /** The reopening of a suppressed report compares the status only. */
    method ReopenSuppressed(env: Deployment, v: Intent) returns (row: Intent, ghost mid: World)
      requires env.Valid() && env.Guarded() && env.store == store && v in env.world.seen
      requires ReportEligibleAgain(v, true, true)
      modifies env`nextToken, env`world, store
      ensures env.Valid() && env.leads(old(env.world), mid) && env.leads(mid, env.world)
      ensures if Matches(mid.db, v.id, Succeeded, None)
              then env.world == Apply(mid, OutboxWrite(ReopenReport(v))) && row == Reopened(v, mid.now)
              else Indexed(env.world.db) && v.key in env.world.db.keys && row == FirstRow(env.world.db, v)
    {
      env.Interfere({});
      mid := env.world;
      row := env.ReopenRow(v, None, ReopenReport(v));
    }

    /** One row per key: the request is enqueued, or its row is returned, reopened when
        it was suppressed and is eligible again. It fails exactly when the key is new
        and the id is taken. */
    method RequestReport(env: Deployment, c: AtomicCase, signature: Signature, id: string, digest: string,
                         since: string, allows: Intent -> bool)
      returns (row: Option<Intent>, ghost mid: World)
      requires env.Valid() && env.Guarded() && env.store == store
      modifies env`nextToken, env`world, store
      ensures env.Valid() && env.leads(old(env.world), mid) && env.leads(mid, env.world) && Indexed(old(env.world).db)
      ensures var w, i := old(env.world), ReportRequest(id, c, signature, digest, since, old(env.world).now);
              && (row.None? <==> i.key !in w.db.keys && i.id in w.db.outbox)
              && (row.Some? ==>
                    Requests(w, mid, env.world, i, row.value, old(Remindable(c)), allows(FirstRow(w.db, i))))
    {
      var reminds := c.lastReportedAt.Some? && c.lastReportedSignature == Some(signature);
      var key := "report:" + c.caseId + ":" + digest;
      var anchor := None;
      if reminds {
        anchor := c.lastReportedAt;
        key := key + (":reminder:" + since);
      }
      assert key == ReportRequest(id, c, signature, digest, since, store.now).key;
      var intent :=
            Intent(id, ReportIntent, c.caseId, key, Some(signature), Pending, 0, NO_TOKEN, None, store.now, None,
                           Payload(None, anchor, Sent, None));
      row, mid := FileReport(env, c, intent, allows);
    }

    /** The intent is enqueued, and a suppressed row that has its key is reopened. */
    method FileReport(env: Deployment, c: AtomicCase, i: Intent, allows: Intent -> bool)
      returns (row: Option<Intent>, ghost mid: World)
      requires env.Valid() && env.Guarded() && env.store == store && NewIntent(i)
      modifies env`nextToken, env`world, store
      ensures env.Valid() && env.leads(old(env.world), mid) && env.leads(mid, env.world) && Indexed(old(env.world).db)
      ensures row.None? <==> i.key !in old(env.world).db.keys && i.id in old(env.world).db.outbox
      ensures row.Some? ==>
                var w := old(env.world);
                Requests(w, mid, env.world, i, row.value, old(Remindable(c)), allows(FirstRow(w.db, i)))
    {
      mid := env.world;
      row := env.EnqueueRow(i);
      if row.None? {
        return;
      }
      var stored := row.value;
      var eligible := stored.status.Succeeded? && stored.payload.suppressed.ReminderNoLongerDue? && Remindable(c);
      if !eligible {
        eligible := stored.status.Succeeded? && stored.payload.suppressed.ReportVerbosity? && allows(stored);
      }
      if eligible {
        var again;
        again, mid := ReopenSuppressed(env, stored);
        row := Some(again);
      }
    }
  }
}
