/** What every run of the delivery protocol keeps about outbox rows, and what
    follows: a claim token enters `in_progress` once, at most one write takes it
    out, and a worker that lost its claim changes nothing. */
module Fencing {
  import opened Types
  import opened Outbox
  import opened Delivery

  // ----- the shape of one step

  /** The row an event stores, if any. */
  function Written(w: World, e: Event): Option<Intent> {
    match e
    case OutboxWrite(op) => OutboxRow(w, op)
    case LeaseWrite(Commit(u, at)) => if Commits(w, u, at) then Some(CommitRow(w, u)) else None
    case _ => None
  }

  function Outboxed(w: World, row: Option<Intent>): map<string, Intent> {
    match row
    case None => w.db.outbox
    case Some(r) => w.db.outbox[r.id := r]
  }

  function Seen(w: World, row: Option<Intent>): set<Intent> {
    match row
    case None => w.seen
    case Some(r) => w.seen + {r}
  }

  /** Jobs are only added, one for each claim, and only their handler state changes. */
  predicate JobsStep(w: World, u: World, row: Option<Intent>) {
    && u.jobs.Keys == (if row.Some? && row.value.status.InProgress? then w.jobs.Keys + {row.value.token}
                       else w.jobs.Keys)
    && (forall t :: t in w.jobs && (row.Some? && row.value.status.InProgress? ==> t != row.value.token) ==>
          u.jobs[t].row == w.jobs[t].row && u.jobs[t].stamped == w.jobs[t].stamped)
    && (row.Some? && row.value.status.InProgress? ==>
          && row.value.token in u.used
          && u.jobs[row.value.token].row == row.value
          && row.value.claimExpiresAt == Some(u.jobs[row.value.token].stamped + CLAIM_SPAN))
  }

  /** How a step changes rows, versions, tokens and jobs, given the row it stores. */
  predicate Change(w: World, u: World, row: Option<Intent>) {
    && u.db.outbox == Outboxed(w, row)
    && u.seen == Seen(w, row)
    && w.used <= u.used
    && (NO_TOKEN !in w.used ==> NO_TOKEN !in u.used)
    && JobsStep(w, u, row)
  }

  lemma OutboxEffect(w: World, op: OutboxOp)
    ensures Change(w, ApplyOutbox(w, op), OutboxRow(w, op))
  {
    match op
    case Claim(_, _, _) =>
    case EnqueueIntent(_) =>
    case _ =>
  }

  lemma LeaseEffect(w: World, op: LeaseOp)
    ensures Change(w, ApplyLease(w, op), Written(w, LeaseWrite(op)))
  {
    match op
    case Commit(u, at) => if Commits(w, u, at) { assert !CommitRow(w, u).status.InProgress?; }
    case _ =>
  }

  lemma HandlerEffect(w: World, op: HandlerOp)
    ensures Change(w, ApplyHandler(w, op), None)
  {
    match op
    case Start(_) =>
    case Stop(_) =>
    case BeginSend(_) =>
    case EndSend(_) =>
    case ReadCase(_) =>
    case ReadAttention(_) =>
    case CheckAttention(_) =>
    case CheckReport(_, _, _) =>
  }

  lemma Effect(w: World, e: Event)
    ensures Change(w, Apply(w, e), Written(w, e))
  {
    match e
    case OutboxWrite(op) => OutboxEffect(w, op);
    case LeaseWrite(op) => LeaseEffect(w, op);
    case Handler(op) => HandlerEffect(w, op);
    case _ =>
  }

  // ----- invariants

  /** Two versions of one intent agree on everything but its progress. */
  predicate SameIntent(v: Intent, u: Intent) {
    && v.id == u.id && v.kind == u.kind && v.caseId == u.caseId && v.key == u.key && v.createdAt == u.createdAt
    && v.signature == u.signature && v.payload.request == u.payload.request
    && v.payload.reminderSince == u.payload.reminderSince
  }

  /** What the payload of a stored version may say. */
  predicate Sane(v: Intent) {
    && (v.payload.delivered.Some? ==> v.status.Succeeded? && v.payload.suppressed.Sent?)
    && (!v.payload.suppressed.Sent? ==> v.status.Succeeded?)
    && (v.status.Abandoned? ==> v.kind.EngineeringHandoff?)
    && (if v.Attends()
        then && v.kind.ReportIntent? && v.payload.reminderSince.None?
             && v.key == RequestKeyOf(v.caseId, v.payload.request.value) && v.payload.request.value.key == v.key
             && (v.payload.suppressed.Sent? || v.payload.suppressed.NoLongerDue?
                 || v.payload.suppressed.AttentionVerbosity?)
             && (v.status.Succeeded? && v.payload.suppressed.Sent? ==> v.payload.delivered.Some?)
        else && v.payload.delivered.None? && !("attention:" <= v.key)
             && !v.payload.suppressed.NoLongerDue? && !v.payload.suppressed.AttentionVerbosity?)
  }

  predicate VersionsAgree(w: World) {
    && (forall id :: id in w.db.outbox ==> w.db.outbox[id].id == id && w.db.outbox[id] in w.seen)
    && (forall v :: v in w.seen ==> v.id in w.db.outbox && SameIntent(v, w.db.outbox[v.id]))
  }

  predicate VersionsSane(w: World) {
    forall v :: v in w.seen ==> Sane(v)
  }

  /** A version carries no token or the token of one claim of its own row. */
  predicate TokensOwned(w: World) {
    && NO_TOKEN !in w.used
    && (forall v :: v in w.seen ==> v.token == NO_TOKEN || (v.token in w.jobs && w.jobs[v.token].row.id == v.id))
    && (forall v :: v in w.seen && v.status.InProgress? ==> v.token != NO_TOKEN)
    && (forall t :: t in w.jobs ==> t in w.used)
  }

  predicate JobsClaimed(w: World) {
    forall t :: t in w.jobs ==>
      && w.jobs[t].row in w.seen && w.jobs[t].row.status.InProgress? && w.jobs[t].row.token == t
      && w.jobs[t].row.claimExpiresAt == Some(w.jobs[t].stamped + CLAIM_SPAN)
  }

  predicate Claimed(w: World, id: string, t: Token) {
    id in w.db.outbox && w.db.outbox[id].status.InProgress? && w.db.outbox[id].token == t
  }

  /** While a row is in progress, every version that carries its token is the row itself. */
  predicate ClaimsCurrent(w: World) {
    forall v :: v in w.seen && Claimed(w, v.id, v.token) ==> v == w.db.outbox[v.id]
  }

  /** A claim succeeds in one way only. */
  predicate SuccessUnique(w: World) {
    forall v, u ::
      (v in w.seen && u in w.seen && v.id == u.id && v.token == u.token && v.status.Succeeded? && u.status.Succeeded?)
      ==> v == u
  }

  ghost predicate Rows(w: World) {
    VersionsAgree(w) && VersionsSane(w) && TokensOwned(w) && JobsClaimed(w) && ClaimsCurrent(w) && SuccessUnique(w)
  }

  // ----- preservation

  /** What holds of any row at the moment it is stored. */
  predicate Admissible(w: World, row: Intent) {
    && Sane(row)
    && (row.id in w.db.outbox ==> SameIntent(row, w.db.outbox[row.id]))
    && (if row.status.InProgress? then row.token !in w.used && row.token != NO_TOKEN && row.id in w.db.outbox
        else row.token == NO_TOKEN || (row.token in w.jobs && w.jobs[row.token].row.id == row.id))
    && (row.id !in w.db.outbox ==> row.token == NO_TOKEN && row.status.Pending?)
    && (row.status.Succeeded? ==> Claimed(w, row.id, row.token))
  }

  lemma ClaimAdmissible(w: World, v: Intent, t: Token, stamped: Instant)
    requires VersionsAgree(w) && VersionsSane(w) && TokensOwned(w) && OutboxRow(w, Claim(v, t, stamped)).Some?
    ensures Admissible(w, OutboxRow(w, Claim(v, t, stamped)).value)
  {
    assert Sane(v);
  }

  lemma OutcomeAdmissible(w: World, t: Token, op: OutboxOp)
    requires VersionsAgree(w) && VersionsSane(w) && TokensOwned(w) && JobsClaimed(w) && OutboxRow(w, op).Some?
    requires (op.Fail? || op.Finish?) && op.claim == t
    ensures Admissible(w, OutboxRow(w, op).value)
  {
    assert Sane(w.jobs[t].row);
  }

  lemma RecoverAdmissible(w: World, v: Intent, checkedAt: Instant)
    requires VersionsAgree(w) && VersionsSane(w) && TokensOwned(w) && OutboxRow(w, Recover(v, checkedAt)).Some?
    ensures Admissible(w, OutboxRow(w, Recover(v, checkedAt)).value)
  {
    assert Sane(v);
  }

  lemma ReopenAdmissible(w: World, v: Intent, op: OutboxOp)
    requires VersionsAgree(w) && VersionsSane(w) && TokensOwned(w) && OutboxRow(w, op).Some?
    requires op == ReopenAttention(v) || op == ReopenReport(v)
    ensures Admissible(w, OutboxRow(w, op).value)
  {
    assert Sane(v);
  }

  lemma AbandonAdmissible(w: World, v: Intent)
    requires VersionsAgree(w) && VersionsSane(w) && TokensOwned(w) && OutboxRow(w, Abandon(v)).Some?
    ensures Admissible(w, OutboxRow(w, Abandon(v)).value)
  {
    assert Sane(v);
  }

  lemma OutboxRowAdmissible(w: World, op: OutboxOp)
    requires Rows(w) && OutboxRow(w, op).Some?
    ensures Admissible(w, OutboxRow(w, op).value)
  {
    match op
    case EnqueueIntent(i) =>
    case Claim(v, t, stamped) => ClaimAdmissible(w, v, t, stamped);
    case Fail(t, _) => OutcomeAdmissible(w, t, op);
    case Finish(t, _) => OutcomeAdmissible(w, t, op);
    case Recover(v, checkedAt) => RecoverAdmissible(w, v, checkedAt);
    case ReopenAttention(v) => ReopenAdmissible(w, v, op);
    case ReopenReport(v) => ReopenAdmissible(w, v, op);
    case Abandon(v) => AbandonAdmissible(w, v);
  }

  lemma CommitRowAdmissible(w: World, u: Token, at: Instant)
    requires Rows(w) && Commits(w, u, at)
    ensures Admissible(w, CommitRow(w, u))
    ensures w.jobs[w.windows[u].claim].row == w.db.outbox[CommitRow(w, u).id]
  {
    var job := w.jobs[w.windows[u].claim].row;
    assert job in w.seen && job.id == CommitRow(w, u).id;
    assert Sane(job);
  }

  lemma WrittenAdmissible(w: World, e: Event)
    requires Rows(w) && Written(w, e).Some?
    ensures Admissible(w, Written(w, e).value)
  {
    match e
    case OutboxWrite(op) => OutboxRowAdmissible(w, op);
    case LeaseWrite(Commit(u, at)) => CommitRowAdmissible(w, u, at);
    case _ =>
  }

  ghost predicate GoodStep(w: World, u: World, row: Option<Intent>) {
    Rows(w) && Change(w, u, row) && (row.Some? ==> Admissible(w, row.value))
  }

  lemma VersionsKept(w: World, u: World, row: Option<Intent>)
    requires VersionsAgree(w) && VersionsSane(w) && Change(w, u, row)
    requires row.Some? ==> Admissible(w, row.value)
    ensures VersionsAgree(u) && VersionsSane(u)
  {
  }

  lemma TokensKept(w: World, u: World, row: Option<Intent>)
    requires VersionsAgree(w) && TokensOwned(w) && Change(w, u, row)
    requires row.Some? ==> Admissible(w, row.value)
    ensures TokensOwned(u)
  {
  }

  lemma JobsKept(w: World, u: World, row: Option<Intent>)
    requires JobsClaimed(w) && Change(w, u, row)
    ensures JobsClaimed(u)
  {
    forall t | t in u.jobs
      ensures u.jobs[t].row in u.seen && u.jobs[t].row.status.InProgress? && u.jobs[t].row.token == t
      ensures u.jobs[t].row.claimExpiresAt == Some(u.jobs[t].stamped + CLAIM_SPAN)
    {
      if row.Some? && row.value.status.InProgress? && t == row.value.token {
      } else {
        assert t in w.jobs && u.jobs[t].row == w.jobs[t].row;
      }
    }
  }

  lemma ClaimsKept(w: World, u: World, row: Option<Intent>)
    requires VersionsAgree(w) && TokensOwned(w) && ClaimsCurrent(w) && Change(w, u, row)
    requires row.Some? ==> Admissible(w, row.value)
    ensures ClaimsCurrent(u)
  {
    forall v | v in u.seen && Claimed(u, v.id, v.token) ensures v == u.db.outbox[v.id] {
      if row.Some? && row.value.id == v.id {
      } else {
        assert Claimed(w, v.id, v.token);
      }
    }
  }

  lemma SuccessKept(w: World, u: World, row: Option<Intent>)
    requires VersionsAgree(w) && ClaimsCurrent(w) && SuccessUnique(w) && Change(w, u, row)
    requires row.Some? ==> Admissible(w, row.value)
    ensures SuccessUnique(u)
  {
    if row.Some? && row.value.status.Succeeded? {
      assert Claimed(w, row.value.id, row.value.token);
      forall v | v in w.seen && v.id == row.value.id && v.token == row.value.token ensures !v.status.Succeeded? {
        assert Claimed(w, v.id, v.token);
      }
    }
  }

  /** Every event keeps the row invariants. */
  lemma RowsStep(w: World, e: Event)
    requires Rows(w)
    ensures Rows(Apply(w, e))
    ensures GoodStep(w, Apply(w, e), Written(w, e))
  {
    Effect(w, e);
    if Written(w, e).Some? {
      WrittenAdmissible(w, e);
    }
    var u, row := Apply(w, e), Written(w, e);
    VersionsKept(w, u, row);
    TokensKept(w, u, row);
    JobsKept(w, u, row);
    ClaimsKept(w, u, row);
    SuccessKept(w, u, row);
  }

  lemma {:induction false} RowsAlways(w: World, events: seq<Event>)
    requires Rows(w)
    ensures Rows(Run(w, events))
  {
    if events != [] {
      RowsAlways(w, events[..|events| - 1]);
      RowsStep(Run(w, events[..|events| - 1]), events[|events| - 1]);
    }
  }

  /** Only an enqueue touches the key index, and only to add its own row. */
  lemma KeysEffect(w: World, e: Event)
    ensures Apply(w, e).db.keys ==
              if e.OutboxWrite? && e.outboxOp.EnqueueIntent? && Written(w, e).Some?
              then w.db.keys[e.outboxOp.intent.key := e.outboxOp.intent.id] else w.db.keys
    ensures e.OutboxWrite? && e.outboxOp.EnqueueIntent? && Written(w, e).Some? ==>
              Written(w, e).value == e.outboxOp.intent && e.outboxOp.intent.key !in w.db.keys
              && e.outboxOp.intent.id !in w.db.outbox
    ensures Written(w, e).Some? && !(e.OutboxWrite? && e.outboxOp.EnqueueIntent?) && Rows(w) ==>
              Written(w, e).value.id in w.db.outbox
  {
    match e
    case OutboxWrite(op) =>
      if op.EnqueueIntent? {
      } else if OutboxRow(w, op).Some? {
        assert OutboxRow(w, op).value.id in w.db.outbox;
      }
    case LeaseWrite(op) => match op { case Commit(_, _) => case _ => }
    case Handler(_) =>
    case _ =>
  }

  lemma IndexedStep(w: World, e: Event)
    requires Rows(w) && Indexed(w.db)
    ensures Indexed(Apply(w, e).db)
  {
    Effect(w, e);
    KeysEffect(w, e);
    if Written(w, e).Some? {
      WrittenAdmissible(w, e);
      IndexKept(w.db, Apply(w, e).db, Written(w, e).value);
    }
  }

  lemma IndexKept(db: Db, after: Db, row: Intent)
    requires Indexed(db) && after.outbox == db.outbox[row.id := row]
    requires if row.id in db.outbox then row.key == db.outbox[row.id].key && after.keys == db.keys
             else row.key !in db.keys && after.keys == db.keys[row.key := row.id]
    ensures Indexed(after)
  {
  }
}
