/** What the writes of the delivery protocol leave behind, each told by the row, lease or
    delivery a reader finds afterwards (app/cases/outbox.py, app/cases/postgres.py). */
module Effects {
  import opened Types
  import opened Attention
  import opened Outbox
  import opened Delivery
  import opened Fencing

  /** All rows but one are as they were, and so is everything but rows. */
  predicate OneRow(w: World, u: World, id: string) {
    && id in u.db.outbox
    && (forall x :: x in w.db.outbox && x != id ==> x in u.db.outbox && u.db.outbox[x] == w.db.outbox[x])
    && (forall x :: x in u.db.outbox && x != id ==> x in w.db.outbox)
    && u.db.table == w.db.table && u.db.leases == w.db.leases && u.db.attention == w.db.attention
    && u.log == w.log && u.windows == w.windows && u.now == w.now
  }

  /** A new intent is stored exactly when its key and its id are new; the row that has the
      key first keeps it. */
  lemma EnqueuedIff(w: World, i: Intent)
    requires NewIntent(i)
    ensures var u := Apply(w, OutboxWrite(EnqueueIntent(i)));
            if i.key !in w.db.keys && i.id !in w.db.outbox
            then OneRow(w, u, i.id) && u.db.outbox[i.id] == i && u.db.keys == w.db.keys[i.key := i.id]
            else u == w
  {
  }

  // ----- claims

  /** A claim is taken exactly when the row still has the status and the token it was read
      with. It then holds the row for ten minutes, counts an attempt, and no other claim of
      the row succeeds. */
  lemma ClaimTakesIff(w: World, v: Intent, t: Token, stamped: Instant)
    requires v in w.seen && v.status in {OutboxStatus.Pending, OutboxStatus.Failed}
    requires t !in w.used && t > 0 && stamped <= w.now
    ensures var u := Apply(w, OutboxWrite(Claim(v, t, stamped)));
            if v.id in w.db.outbox && w.db.outbox[v.id].status == v.status && w.db.outbox[v.id].token == v.token then
              && OneRow(w, u, v.id) && t in u.used
              && u.db.outbox[v.id].status == InProgress && u.db.outbox[v.id].token == t
              && u.db.outbox[v.id].attempts == v.attempts + 1
              && u.db.outbox[v.id].claimExpiresAt == Some(stamped + 600_000_000)
              && SameIntent(u.db.outbox[v.id], v) && u.db.outbox[v.id].payload == v.payload
              && u.db.outbox[v.id].nextAttemptAt == v.nextAttemptAt
              && (forall x: Intent, s, at :: x.id == v.id ==> OutboxRow(u, Claim(x, s, at)) == None)
            else u == w
  {
    var u := Apply(w, OutboxWrite(Claim(v, t, stamped)));
    if Matches(w.db, v.id, v.status, Some(v.token)) {
      forall x: Intent, s, at | x.id == v.id ensures OutboxRow(u, Claim(x, s, at)) == None {
        assert !Matches(u.db, v.id, OutboxStatus.Pending, Some(x.token));
        assert !Matches(u.db, v.id, OutboxStatus.Failed, Some(x.token));
      }
    }
  }

  /** The claim of a report is taken back exactly from ten minutes after it was stamped; a
      claim without an expiry, from ten minutes after the intent was created. The row is then
      pending and due at once. */
  lemma RecoveryIff(w: World, v: Intent, checkedAt: Instant)
    requires v in w.seen && v.id in w.db.outbox && w.db.outbox[v.id] == v && v.status == InProgress
    requires v.kind == ReportIntent && checkedAt <= w.now
    ensures var u, lapse := Apply(w, OutboxWrite(Recover(v, checkedAt))),
                    if v.claimExpiresAt.Some? then v.claimExpiresAt.value else v.createdAt + 600_000_000;
            if lapse <= checkedAt then
              && OneRow(w, u, v.id)
              && u.db.outbox[v.id] == v.(status := OutboxStatus.Pending, nextAttemptAt := Some(w.now))
              && (forall at :: w.now <= at ==> IsDue(u.db.outbox[v.id], at))
            else u == w
  {
  }

  // ----- outcomes

  /** The worker that holds a row fails it until its retry time, or completes it with the
      outcome of its handler; a worker whose row was taken since changes nothing. */
  lemma OutcomeIsStored(w: World, t: Token, retryAt: Instant, outcome: Suppression)
    requires t in w.jobs && w.jobs[t].handler == Over && OutcomeFits(w.jobs[t].row, outcome)
    ensures var row, f, s := w.jobs[t].row, Apply(w, OutboxWrite(Fail(t, retryAt))),
                    Apply(w, OutboxWrite(Finish(t, outcome)));
            if row.id in w.db.outbox && w.db.outbox[row.id].status == InProgress && w.db.outbox[row.id].token == t then
              && OneRow(w, f, row.id) && OneRow(w, s, row.id)
              && f.db.outbox[row.id] == row.(status := OutboxStatus.Failed, nextAttemptAt := Some(retryAt))
              && (forall at :: IsDue(f.db.outbox[row.id], at) <==> retryAt <= at)
              && s.db.outbox[row.id] == row.(status := Succeeded, payload := row.payload.(suppressed := outcome))
            else f == w && s == w
  {
  }

  /** A suppressed attention row that is reopened is pending again, due at once, and reads
      as if it had sent nothing yet. */
  lemma ReopeningIsStored(w: World, v: Intent)
    requires v in w.seen && v.id in w.db.outbox && w.db.outbox[v.id] == v && v.status == Succeeded
    requires v.payload.request.Some? && v.payload.suppressed in {NoLongerDue, AttentionVerbosity}
    ensures var u := Apply(w, OutboxWrite(ReopenAttention(v)));
            && OneRow(w, u, v.id) && u.db.outbox[v.id].status == OutboxStatus.Pending
            && u.db.outbox[v.id].payload.suppressed == Sent
            && u.db.outbox[v.id].payload.delivered == v.payload.delivered
            && u.db.outbox[v.id].token == v.token && u.db.outbox[v.id].attempts == v.attempts
            && SameIntent(u.db.outbox[v.id], v) && (forall at :: w.now <= at ==> IsDue(u.db.outbox[v.id], at))
  {
  }

  /** Engineering intents of a cancelled handoff are abandoned unless they are done. */
  lemma AbandonIff(w: World, v: Intent)
    requires v in w.seen && v.id in w.db.outbox && w.db.outbox[v.id].status == v.status
    ensures var u := Apply(w, OutboxWrite(Abandon(v)));
            if v.kind == EngineeringHandoff && v.status in {OutboxStatus.Pending, InProgress, OutboxStatus.Failed}
            then OneRow(w, u, v.id) && u.db.outbox[v.id] == v.(status := Abandoned)
            else u == w
  {
  }

  // ----- leases

  /** A lease is granted exactly to the worker that holds the row, on a known case at the
      turn it expects, when no other lease runs. It then keeps every other worker out for
      two minutes, and not longer. */
  lemma LeaseIff(w: World, t: Token, u: Token, sequence: nat)
    requires t in w.jobs && w.jobs[t].handler.Running? && w.jobs[t].row.kind == ReportIntent && u !in w.used && u > 0
    ensures var row, x := w.jobs[t].row, Apply(w, LeaseWrite(Acquire(t, u, sequence)));
            var c := row.caseId;
            if && c in w.db.table.cases
               && row.id in w.db.outbox && w.db.outbox[row.id].status == InProgress
               && w.db.outbox[row.id].token == row.token
               && w.db.outbox[row.id].caseId == c
               && (if c in w.db.attention then w.db.attention[c].sequence else 0) == sequence
               && (c in w.db.leases ==> w.db.leases[c].expiresAt <= w.now)
            then
              && c in x.db.leases && x.db.leases[c].token == u && x.db.leases[c].outboxId == row.id
              && x.db.leases[c].claim == row.token
              && (forall at :: LeaseFree(x.db, c, at) <==> w.now + 120_000_000 <= at)
              && (forall d :: d in w.db.leases && d != c ==> d in x.db.leases && x.db.leases[d] == w.db.leases[d])
              && x.db.outbox == w.db.outbox && x.db.table == w.db.table && x.db.attention == w.db.attention
            else x == w
  {
  }

  /** A worker gives back its own lease and no other. */
  lemma ReleaseIff(w: World, u: Token)
    requires u in w.windows && w.windows[u].sending == Over
    ensures var c, x := w.windows[u].caseId, Apply(w, LeaseWrite(Release(u)));
            && (c in w.db.leases && w.db.leases[c].token == u ==> c !in x.db.leases)
            && (c in w.db.leases && w.db.leases[c].token != u ==> x == w)
            && (forall d :: d in w.db.leases && d != c ==> d in x.db.leases && x.db.leases[d] == w.db.leases[d])
            && x.db.outbox == w.db.outbox && x.db.table == w.db.table && x.db.attention == w.db.attention
  {
  }

  // ----- commits

  /** What a commit needs: the lease still runs, is the worker's own and names the row and
      claim it was granted for; the row is still in progress under that claim; and no
      delivery of the case was committed since the lease was granted. */
  predicate StillMine(db: Db, now: Instant, row: Intent, c: string, sequence: nat, u: Token) {
    && c in db.table.cases && c in db.leases && now < db.leases[c].expiresAt
    && db.leases[c].token == u && db.leases[c].outboxId == row.id && db.leases[c].claim == row.token
    && row.id in db.outbox && db.outbox[row.id].status == InProgress && db.outbox[row.id].token == row.token
    && db.outbox[row.id].caseId == c
    && (if c in db.attention then db.attention[c].sequence else 0) == sequence
  }

  /** A commit is stored exactly while the worker's lease and claim still stand. It records
      what the worker checked as the next delivery of the case, completes the row, drops the
      lease, and stamps a reported case with the instant and the state that was sent. */
  lemma CommitIff(w: World, u: Token, at: Instant)
    requires JobsClaimed(w) && Committable(w, u, at)
    ensures var x, win, row := Apply(w, LeaseWrite(Commit(u, at))), w.windows[u], w.jobs[w.windows[u].claim].row;
            var c, k := win.caseId, win.check.value;
            if StillMine(w.db, w.now, row, c, win.sequence, u) then
              && c in x.db.attention && c !in x.db.leases && row.id in x.db.outbox && c in x.db.table.cases
              && x.db.attention[c] == AttentionDelivery(c, k.generation, k.phase, k.severity, at, win.sequence + 1)
              && x.db.outbox[row.id] == row.(status := Succeeded, payload := x.db.outbox[row.id].payload)
              && x.db.outbox[row.id].payload ==
                   row.payload.(delivered := if row.payload.request.Some? then Some(k.kind) else None)
              && x.db.table.cases[c] ==
                   (if k.report.None? then w.db.table.cases[c]
                    else w.db.table.cases[c].(lastReportedAt := Some(at), lastReportedSignature := k.report))
            else x == w
  {
  }

  lemma CommitTouchesOne(w: World, u: Token, at: Instant)
    requires JobsClaimed(w) && Committable(w, u, at)
    ensures var x, c, id := Apply(w, LeaseWrite(Commit(u, at))), w.windows[u].caseId, w.jobs[w.windows[u].claim].row.id;
            && (forall d :: d in w.db.attention && d != c ==>
                  d in x.db.attention && x.db.attention[d] == w.db.attention[d])
            && (forall d :: d in w.db.leases && d != c ==> d in x.db.leases && x.db.leases[d] == w.db.leases[d])
            && (forall d :: d in w.db.table.cases && d != c ==>
                  d in x.db.table.cases && x.db.table.cases[d] == w.db.table.cases[d])
            && (forall i :: i in w.db.outbox && i != id ==> i in x.db.outbox && x.db.outbox[i] == w.db.outbox[i])
            && x.db.keys == w.db.keys && x.db.table.scopes == w.db.table.scopes
  {
  }

  // ----- deadlines

  /** Time passes as long as no running report handler comes to more than three minutes and
      no running send to more than one. */
  lemma TimePassesIff(w: World, elapsed: nat)
    ensures var u := Apply(w, Tick(elapsed));
            if && (forall t :: t in w.jobs && w.jobs[t].row.kind == ReportIntent && w.jobs[t].handler.Running? ==>
                     w.now + elapsed - w.jobs[t].handler.since <= 180_000_000)
               && (forall x :: x in w.windows && w.windows[x].sending.Running? ==>
                     w.now + elapsed - w.windows[x].sending.since <= 60_000_000)
            then u == w.(now := w.now + elapsed) else u == w
  {
  }

  // ----- what counts as outstanding

  /** Attention is outstanding for a case exactly while a report intent with a request for
      it is pending, failed or in progress. */
  lemma OutstandingIff(db: Db, caseId: string)
    ensures PendingAttention(db, caseId) <==>
              exists v :: v in db.outbox.Values && v.caseId == caseId && v.kind == ReportIntent
                && v.payload.request.Some? && v.status !in {Succeeded, Abandoned}
  {
    if PendingAttention(db, caseId) {
      var id :| id in db.outbox && db.outbox[id].caseId == caseId && db.outbox[id].kind.ReportIntent?
                && (db.outbox[id].status.Pending? || db.outbox[id].status.Failed? || db.outbox[id].status.InProgress?)
                && db.outbox[id].Attends();
      assert db.outbox[id] in db.outbox.Values;
    }
  }
}
