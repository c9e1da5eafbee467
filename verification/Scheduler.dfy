/** Attention enqueueing (app/cases/attention_scheduler.py). */
module Scheduler {
  import opened Types
  import opened Attention
  import opened Outbox
  import opened Delivery
  import opened Fencing
  import opened Rate
  import opened Recurrence
  import opened Deployments

  datatype Queueing = Nothing | Queued(intent: Intent) | Raised

  /** The intent a due request is enqueued as. */
  function AttentionIntent(id: string, caseId: string, r: AttentionRequest, now: Instant): Intent {
    Intent(id, ReportIntent, caseId, r.key, None, Pending, 0, NO_TOKEN, None, now, None,
           Payload(Some(r), None, Sent, None))
  }

  predicate EligibleAgain(row: Intent, allowed: bool) {
    row.status.Succeeded?
    && (row.payload.suppressed.NoLongerDue? || (row.payload.suppressed.AttentionVerbosity? && allowed))
  }

  function QueuedRow(db: Db, i: Intent, now: Instant, allowed: bool): Intent
    requires Indexed(db)
  {
    var first := FirstRow(db, i);
    if EligibleAgain(first, allowed) then Reopened(first, now) else first
  }

  /** An enqueue that finds the same row each time changes nothing else. */
  function QueuedDb(db: Db, i: Intent, now: Instant, allowed: bool): Db
    requires Indexed(db)
  {
    Write(Enqueue(db, i), QueuedRow(db, i, now, allowed))
  }

  /** A request is filed as a pending report intent, due at once, that carries it. */
  lemma FiledAs(id: string, caseId: string, r: AttentionRequest, now: Instant)
    ensures var i := AttentionIntent(id, caseId, r, now);
            && i.id == id && i.caseId == caseId && i.kind == ReportIntent && i.key == r.key && i.createdAt == now
            && i.status == Pending && i.token == 0 && i.claimExpiresAt == None && i.payload.request == Some(r)
            && i.payload.suppressed == Sent && i.payload.delivered == None && forall at :: IsDue(i, at)
  {
  }

  /** The row a request ends up in: a new one under a new key; the one that is there if it
      is live, was sent, or was withheld by a verbosity that still applies; and that one,
      pending again, if what suppressed it no longer holds. */
  lemma QueuedRowIs(db: Db, i: Intent, now: Instant, allowed: bool)
    requires Indexed(db) && i.status == Pending
    ensures var row := QueuedRow(db, i, now, allowed);
            if i.key !in db.keys then row == i
            else
              var v := db.outbox[db.keys[i.key]];
              if v.status == Succeeded && (v.payload.suppressed == NoLongerDue
                                           || (v.payload.suppressed == AttentionVerbosity && allowed))
              then row.status == Pending && SameIntent(row, v) && row.payload.suppressed == Sent && row.token == v.token
                   && row.payload.delivered == v.payload.delivered && IsDue(row, now)
              else row == v
  {
  }

  /** Enqueueing is all there is to it unless the row is reopened. */
  lemma EnqueueIsEvent(w: World, i: Intent, allowed: bool)
    requires Indexed(w.db) && NewIntent(i) && (i.key in w.db.keys || i.id !in w.db.outbox)
    requires !EligibleAgain(FirstRow(w.db, i), allowed)
    ensures Apply(w, OutboxWrite(EnqueueIntent(i))).db == QueuedDb(w.db, i, w.now, allowed)
  {
    assert Write(Enqueue(w.db, i), FirstRow(w.db, i)) == Enqueue(w.db, i);
  }

  lemma ReopenIsEvent(w: World, i: Intent, v: Intent, allowed: bool)
    requires Indexed(w.db) && i.key in w.db.keys && FirstRow(w.db, i) == v
    requires v in w.seen && v.Attends() && EligibleAgain(v, allowed)
    ensures Apply(w, OutboxWrite(ReopenAttention(v))).db == QueuedDb(w.db, i, w.now, allowed)
    ensures Reopened(v, w.now) == QueuedRow(w.db, i, w.now, allowed)
  {
  }

  lemma One(w: World, e: Event) returns (events: seq<Event>)
    ensures events == [e] && Run(w, events) == Apply(w, e)
  {
    events := [e];
    assert events[..0] == [];
  }

  /** Queueing a request is at most one step of the delivery protocol. */
  lemma QueueIsProtocol(w: World, i: Intent, allowed: bool) returns (events: seq<Event>)
    requires VersionsAgree(w) && Indexed(w.db) && NewIntent(i) && FirstRow(w.db, i).Attends()
    requires i.key in w.db.keys || i.id !in w.db.outbox
    ensures |events| <= 1 && Run(w, events).db == QueuedDb(w.db, i, w.now, allowed)
  {
    var first := FirstRow(w.db, i);
    if EligibleAgain(first, allowed) {
      ReopenIsEvent(w, i, first, allowed);
      events := One(w, OutboxWrite(ReopenAttention(first)));
    } else {
      EnqueueIsEvent(w, i, allowed);
      events := One(w, OutboxWrite(EnqueueIntent(i)));
    }
  }

  /** A request whose turn has not passed ends up in a row that carries it and was
      never sent: live, or withheld by a verbosity that still applies. */
  lemma DueIsQueued(w: World, caseId: string, r: AttentionRequest, id: string, at: Instant, allowed: bool)
    requires Paced(w) && DeliveredPast(w) && Indexed(w.db)
    requires r.key == RequestKeyOf(caseId, r) && Sequence(w.db, caseId) <= r.expectedSequence
    ensures Carries(QueuedRow(w.db, AttentionIntent(id, caseId, r, at), w.now, allowed), caseId, r)
    ensures var row := QueuedRow(w.db, AttentionIntent(id, caseId, r, at), w.now, allowed);
            && row.payload.delivered.None?
            && (row.status.Succeeded? ==> row.payload.suppressed.AttentionVerbosity? && !allowed)
  {
    TurnNeverBlocked(w, caseId, r);
  }

  predicate Carries(row: Intent, caseId: string, r: AttentionRequest) {
    && row.key == r.key && row.caseId == caseId
    && row.payload.request.Some? && RequestKeyOf(caseId, row.payload.request.value) == r.key
  }

  // ----- the code, with other workers between its steps

  /** Of a queueing that read its row at `w` and compared it again at `mid`: whether
      another worker had written the row in between. */
  predicate Raced(w: World, mid: World, i: Intent, allowed: bool)
    requires Indexed(w.db)
  {
    var first := FirstRow(w.db, i);
    EligibleAgain(first, allowed) && !Matches(mid.db, first.id, Succeeded, Some(first.token))
  }

  /** A queueing begun at `w` and over at `u`. Unless it was raced, the row and the
      database are those of one atomic queueing at `mid`; there is only one instant
      when nothing is reopened. If it was raced, the row is the one there at the end. */
  predicate Queues(w: World, mid: World, u: World, i: Intent, row: Intent, allowed: bool) {
    && Indexed(w.db) && Indexed(mid.db) && Indexed(u.db)
    && (!EligibleAgain(FirstRow(w.db, i), allowed) ==> mid == w)
    && (if Raced(w, mid, i, allowed) then row == FirstRow(u.db, i)
        else row == QueuedRow(mid.db, i, mid.now, allowed) && u.db == QueuedDb(mid.db, i, mid.now, allowed))
  }

  /** Enqueue, and reopen what was suppressed and is eligible again. It fails exactly
      when the key is new and the id is taken. */
  method Queue(env: Deployment, i: Intent, allowed: bool) returns (row: Option<Intent>, ghost mid: World)
    requires env.Valid() && env.Guarded() && NewIntent(i) && i.Attends()
    modifies env`nextToken, env`world, env.store
    ensures env.Valid() && env.leads(old(env.world), mid) && env.leads(mid, env.world)
    ensures row.None? <==> i.key !in old(env.world).db.keys && i.id in old(env.world).db.outbox
    ensures row.Some? ==> Queues(old(env.world), mid, env.world, i, row.value, allowed)
  {
    mid := env.world;
    row := env.EnqueueRow(i);
    if row.None? {
      return;
    }
    if !EligibleAgain(row.value, allowed) {
      EnqueueIsEvent(mid, i, allowed);
    }
    var stored := row.value;
    var eligible := stored.payload.suppressed.NoLongerDue?;
    if stored.payload.suppressed.AttentionVerbosity? {
      eligible := allowed;
    }
    if stored.status.Succeeded? && eligible {
      var again;
      again, mid := Reopen(env, i, stored, allowed);
      row := Some(again);
    }
  }

  /** The reopening compare-and-set, at `mid`, of the row that was read. */
  method Reopen(env: Deployment, i: Intent, v: Intent, allowed: bool) returns (row: Intent, ghost mid: World)
    requires env.Valid() && env.Guarded() && env.OnFile(v) && EligibleAgain(v, allowed)
    requires NewIntent(i) && i.Attends() && v.key == i.key
    modifies env`nextToken, env`world, env.store
    ensures env.Valid() && env.leads(old(env.world), mid) && env.leads(mid, env.world)
    ensures Indexed(mid.db) && Indexed(env.world.db)
    ensures if Matches(mid.db, v.id, Succeeded, Some(v.token))
            then row == QueuedRow(mid.db, i, mid.now, allowed) && env.world.db == QueuedDb(mid.db, i, mid.now, allowed)
            else row == FirstRow(env.world.db, i)
  {
    AttentionRead(env, v);
    env.Interfere({});
    mid := env.world;
    ReadStays(env, i, v);
    if Matches(mid.db, v.id, Succeeded, Some(v.token)) {
      ReopenIsEvent(mid, i, v, allowed);
    }
    row := env.ReopenRow(v, Some(v.token), ReopenAttention(v));
    env.IndexHolds();
  }

  /** A row that was read is the row of its key later, and if it is still there
      completed under its token it is there unchanged. */
  lemma ReadStays(env: Deployment, i: Intent, v: Intent)
    requires env.Valid() && env.Guarded() && v in env.world.seen && v.status.Succeeded? && v.key == i.key
    ensures Indexed(env.world.db) && i.key in env.world.db.keys && env.world.db.keys[i.key] == v.id
    ensures Matches(env.world.db, v.id, Succeeded, Some(v.token)) ==> FirstRow(env.world.db, i) == v
  {
    env.KeyStays(v);
    assert Rows(env.world);
  }

  /** What is known of a stored row with an attention key. */
  lemma AttentionRead(env: Deployment, v: Intent)
    requires env.Valid() && env.Guarded() && env.OnFile(v) && "attention:" <= v.key
    ensures v in env.world.seen && v.Attends()
  {
    assert Rows(env.world);
    assert v in env.world.seen && Sane(v);
  }

  /** The states a call passed through: when it read the delivery, when it enqueued,
      when it compared the row again, and at its end. */
  datatype Turn = Turn(read: World, start: World, mid: World, after: World)

  ghost predicate InTurn(env: Deployment, t: Turn) {
    env.leads(t.read, t.start) && env.leads(t.start, t.mid) && env.leads(t.mid, t.after)
  }

  /** What becomes of a case, by its verdict on the delivery stored when that was read. */
  predicate Enqueued(c: AtomicCase, q: Queueing, t: Turn, at: Instant, id: string, allows: AttentionRequest -> bool,
                     reminderSeconds: int)
  {
    var verdict := AttentionDue(c, Previous(t.read.db, c.caseId), at, reminderSeconds);
    && (q.Nothing? <==> !c.Monitored() || verdict.NotDue?)
    && (c.Monitored() && verdict.WrongCase? ==> q.Raised?)
    && (c.Monitored() && verdict.Due? ==>
          && (q.Raised? <==> verdict.request.key !in t.start.db.keys && id in t.start.db.outbox)
          && (q.Queued? ==>
                Queues(t.start, t.mid, t.after, AttentionIntent(id, c.caseId, verdict.request, t.start.now), q.intent,
                       allows(verdict.request))))
  }

  lemma QueuesKey(w: World, mid: World, u: World, i: Intent, row: Intent, allowed: bool)
    requires Queues(w, mid, u, i, row, allowed)
    ensures row.key == i.key
  {
  }

  /** Something is queued for a monitored case whose verdict was a request. */
  lemma QueuedAsOwed(c: AtomicCase, q: Queueing, t: Turn, at: Instant, id: string, allows: AttentionRequest -> bool,
                     reminderSeconds: int) returns (r: AttentionRequest)
    requires Enqueued(c, q, t, at, id, allows, reminderSeconds) && q.Queued?
    ensures c.Monitored() && AttentionDue(c, Previous(t.read.db, c.caseId), at, reminderSeconds) == Due(r)
    ensures r.key == RequestKeyOf(c.caseId, r) && r.expectedSequence == Sequence(t.read.db, c.caseId)
    ensures Queues(t.start, t.mid, t.after, AttentionIntent(id, c.caseId, r, t.start.now), q.intent, allows(r))
  {
    r := AttentionDue(c, Previous(t.read.db, c.caseId), at, reminderSeconds).request;
  }

  method EnqueueAttention(env: Deployment, c: AtomicCase, at: Instant, id: string, allows: AttentionRequest -> bool)
    returns (q: Queueing, ghost t: Turn)
    requires env.Valid() && env.Guarded()
    modifies env`nextToken, env`world, env.store
    ensures env.Valid() && t.read == old(env.world) && t.after == env.world && InTurn(env, t)
    ensures Enqueued(c, q, t, at, id, allows, env.reminderSeconds)
  {
    ghost var read := env.world;
    t := Turn(read, read, read, read);
    if !c.Monitored() {
      return Nothing, t;
    }
    var previous := env.store.GetAttention(c.caseId);
    var verdict := AttentionDue(c, previous, at, env.reminderSeconds);
    if verdict.WrongCase? {
      return Raised, t;
    }
    if verdict.NotDue? {
      return Nothing, t;
    }
    env.Interfere({});
    ghost var start := env.world;
    var row;
    ghost var mid;
    row, mid := QueueRequest(env, c, verdict.request, id, allows(verdict.request));
    t := Turn(read, start, mid, env.world);
    q := if row.Some? then Queued(row.value) else Raised;
  }

  method QueueRequest(env: Deployment, c: AtomicCase, r: AttentionRequest, id: string, allowed: bool)
    returns (row: Option<Intent>, ghost mid: World)
    requires env.Valid() && env.Guarded() && r.key == RequestKeyOf(c.caseId, r)
    modifies env`nextToken, env`world, env.store
    ensures env.Valid() && env.leads(old(env.world), mid) && env.leads(mid, env.world)
    ensures row.None? <==> r.key !in old(env.world).db.keys && id in old(env.world).db.outbox
    ensures row.Some? ==>
              var i := AttentionIntent(id, c.caseId, r, old(env.world).now);
              Queues(old(env.world), mid, env.world, i, row.value, allowed)
  {
    var i := AttentionIntent(id, c.caseId, r, env.store.now);
    assert NewIntent(i);
    row, mid := Queue(env, i, allowed);
  }

  /** While the turn has not passed, whatever row has the key was not sent. */
  lemma FirstCarries(w: World, caseId: string, r: AttentionRequest, id: string, at: Instant)
    requires Paced(w) && DeliveredPast(w) && Indexed(w.db)
    requires r.key == RequestKeyOf(caseId, r) && Sequence(w.db, caseId) <= r.expectedSequence
    ensures var row := FirstRow(w.db, AttentionIntent(id, caseId, r, at));
            Carries(row, caseId, r) && row.payload.delivered.None?
  {
    TurnNeverBlocked(w, caseId, r);
  }

  /** A queued request is carried by a row that was not sent, unless another worker
      committed a delivery for the case first. */
  lemma QueuedUnlessOvertaken(w: World, mid: World, u: World, row: Intent, caseId: string,
                              r: AttentionRequest, id: string, at: Instant, allowed: bool)
    requires Queues(w, mid, u, AttentionIntent(id, caseId, r, at), row, allowed) && r.key == RequestKeyOf(caseId, r)
    requires Paced(mid) && DeliveredPast(mid) && Paced(u) && DeliveredPast(u)
    requires Sequence(mid.db, caseId) <= r.expectedSequence && Sequence(u.db, caseId) <= r.expectedSequence
    ensures Carries(row, caseId, r) && row.payload.delivered.None?
  {
    if Raced(w, mid, AttentionIntent(id, caseId, r, at), allowed) {
      FirstCarries(u, caseId, r, id, at);
    } else {
      DueIsQueued(mid, caseId, r, id, at, allowed);
    }
  }
}
