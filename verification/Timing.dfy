/** What one clock gives the delivery protocol: handlers end before their claim can
    be recovered, and send windows end before their lease can be taken over. */
module Timing {
  import opened Types
  import opened Outbox
  import opened Delivery
  import opened Fencing

  // ----- handlers

  /** A report handler that is running or may still begin. */
  predicate Live(w: World, t: Token) {
    && t in w.jobs && w.jobs[t].row.kind.ReportIntent?
    && (w.jobs[t].handler.Running? || (w.jobs[t].handler.Waiting? && w.now < w.jobs[t].stamped + CLAIM_SLACK))
  }

  predicate HandlersTimed(w: World) {
    forall t :: t in w.jobs && w.jobs[t].row.kind.ReportIntent? && w.jobs[t].handler.Running? ==>
      w.jobs[t].handler.since < w.jobs[t].stamped + CLAIM_SLACK && w.now <= w.jobs[t].handler.since + HANDLER_DEADLINE
  }

  /** A live handler's claim is the stored row. */
  ghost predicate HandlersCurrent(w: World) {
    forall t :: Live(w, t) ==> w.jobs[t].row.id in w.db.outbox && w.db.outbox[w.jobs[t].row.id] == w.jobs[t].row
  }

  lemma LiveEndsBeforeExpiry(w: World, t: Token)
    requires HandlersTimed(w) && JobsClaimed(w) && Live(w, t)
    ensures !ClaimExpired(w.jobs[t].row, w.now)
  {
  }

  /** The row of a claim whose handler is not over, and which has not lapsed. */
  predicate Held(w: World, t: Token) {
    && t in w.jobs && w.jobs[t].row.token == t && w.jobs[t].row.status.InProgress? && w.jobs[t].row.kind.ReportIntent?
    && w.jobs[t].row.id in w.db.outbox && w.db.outbox[w.jobs[t].row.id] == w.jobs[t].row
    && !w.jobs[t].handler.Over? && !ClaimExpired(w.jobs[t].row, w.now)
  }

  lemma OutcomeSparesHeld(w: World, op: OutboxOp, t: Token)
    requires JobsClaimed(w) && Held(w, t) && (op.Fail? || op.Finish?) && OutboxRow(w, op).Some?
    ensures OutboxRow(w, op).value.id != w.jobs[t].row.id
  {
  }

  lemma RecoverSparesHeld(w: World, v: Intent, checkedAt: Instant, t: Token)
    requires ClaimsCurrent(w) && Held(w, t) && OutboxRow(w, Recover(v, checkedAt)).Some?
    ensures v.id != w.jobs[t].row.id
  {
    if v.id == w.jobs[t].row.id {
      assert Claimed(w, v.id, v.token);
    }
  }

  lemma AbandonSparesHeld(w: World, v: Intent, t: Token)
    requires VersionsAgree(w) && Held(w, t) && OutboxRow(w, Abandon(v)).Some?
    ensures v.id != w.jobs[t].row.id
  {
    assert SameIntent(v, w.db.outbox[v.id]);
  }

  lemma OthersSpareHeld(w: World, op: OutboxOp, t: Token)
    requires op.EnqueueIntent? || op.Claim? || op.ReopenAttention? || op.ReopenReport?
    requires Held(w, t) && OutboxRow(w, op).Some?
    ensures OutboxRow(w, op).value.id != w.jobs[t].row.id
  {
  }

  lemma LiveRowNotRewritten(w: World, op: OutboxOp, t: Token)
    requires VersionsAgree(w) && JobsClaimed(w) && ClaimsCurrent(w) && Held(w, t) && OutboxRow(w, op).Some?
    ensures OutboxRow(w, op).value.id != w.jobs[t].row.id
  {
    match op
    case Fail(_, _) => OutcomeSparesHeld(w, op, t);
    case Finish(_, _) => OutcomeSparesHeld(w, op, t);
    case Recover(v, checkedAt) => RecoverSparesHeld(w, v, checkedAt, t);
    case Abandon(v) => AbandonSparesHeld(w, v, t);
    case _ => OthersSpareHeld(w, op, t);
  }

  /** No event writes the row of a live handler. */
  lemma LiveRowUntouched(w: World, e: Event, t: Token)
    requires Rows(w) && HandlersTimed(w) && HandlersCurrent(w) && Live(w, t)
    ensures Written(w, e).None? || Written(w, e).value.id != w.jobs[t].row.id
  {
    LiveEndsBeforeExpiry(w, t);
    assert Held(w, t);
    if Written(w, e).Some? {
      match e
      case OutboxWrite(op) => LiveRowNotRewritten(w, op, t);
      case LeaseWrite(Commit(u, at)) => CommitSparesHeld(w, u, at, t);
      case _ =>
    }
  }

  lemma CommitSparesHeld(w: World, u: Token, at: Instant, t: Token)
    requires JobsClaimed(w) && Held(w, t) && Commits(w, u, at)
    ensures CommitRow(w, u).id != w.jobs[t].row.id
  {
  }

  /** Outbox and lease writes only add jobs, and those wait. */
  lemma JobsKeptOrNew(w: World, e: Event, t: Token)
    requires e.OutboxWrite? || e.LeaseWrite? || e.CaseWrite? || e.Tick?
    requires t in Apply(w, e).jobs
    ensures (t in w.jobs && Apply(w, e).jobs[t] == w.jobs[t])
            || (Apply(w, e).jobs[t].handler.Waiting? && Written(w, e).Some?
                && Written(w, e).value.status.InProgress? && Written(w, e).value.token == t)
  {
    match e
    case OutboxWrite(_) =>
    case LeaseWrite(_) =>
    case CaseWrite(_) =>
    case Tick(_) =>
  }

  lemma HandlersTimedStep(w: World, e: Event)
    requires HandlersTimed(w)
    ensures HandlersTimed(Apply(w, e))
  {
    match e
    case Handler(op) => HandlerOpTimed(w, op);
    case Tick(_) =>
    case _ =>
      forall t | t in Apply(w, e).jobs && Apply(w, e).jobs[t].handler.Running?
        ensures t in w.jobs && Apply(w, e).jobs[t] == w.jobs[t]
      {
        JobsKeptOrNew(w, e, t);
      }
  }

  lemma HandlerOpTimed(w: World, op: HandlerOp)
    requires HandlersTimed(w)
    ensures HandlersTimed(ApplyHandler(w, op))
  {
    match op
    case Start(_) =>
    case Stop(_) =>
    case _ =>
  }

  lemma LiveBefore(w: World, e: Event, t: Token)
    requires Live(Apply(w, e), t)
    ensures Live(w, t)
            || (Written(w, e).Some? && Written(w, e).value.status.InProgress? && Written(w, e).value.token == t)
  {
    match e
    case Handler(Start(_)) =>
    case Handler(_) =>
    case _ => JobsKeptOrNew(w, e, t);
  }

  lemma ClaimsDrawFresh(w: World, e: Event, t: Token)
    requires Rows(w) && t in w.jobs && Written(w, e).Some? && Written(w, e).value.status.InProgress?
    ensures Written(w, e).value.token != t
  {
    WrittenAdmissible(w, e);
  }

  lemma LiveStaysCurrent(w: World, e: Event, t: Token)
    requires Rows(w) && HandlersTimed(w) && HandlersCurrent(w) && Live(Apply(w, e), t)
    ensures var u := Apply(w, e);
            u.jobs[t].row.id in u.db.outbox && u.db.outbox[u.jobs[t].row.id] == u.jobs[t].row
  {
    LiveBefore(w, e, t);
    if Live(w, t) {
      LiveRowUntouched(w, e, t);
      if Written(w, e).Some? && Written(w, e).value.status.InProgress? {
        ClaimsDrawFresh(w, e, t);
      }
    }
    Effect(w, e);
    RowFollows(w, Apply(w, e), Written(w, e), t);
  }

  lemma RowFollows(w: World, u: World, row: Option<Intent>, t: Token)
    requires Change(w, u, row) && t in u.jobs
    requires if row.Some? && row.value.status.InProgress? && row.value.token == t then true
             else t in w.jobs && w.jobs[t].row.id in w.db.outbox && w.db.outbox[w.jobs[t].row.id] == w.jobs[t].row
                  && (row.None? || row.value.id != w.jobs[t].row.id)
    ensures u.jobs[t].row.id in u.db.outbox && u.db.outbox[u.jobs[t].row.id] == u.jobs[t].row
  {
  }

  lemma HandlersCurrentStep(w: World, e: Event)
    requires Rows(w) && HandlersTimed(w) && HandlersCurrent(w)
    ensures HandlersCurrent(Apply(w, e))
  {
    var u := Apply(w, e);
    forall t | Live(u, t)
      ensures u.jobs[t].row.id in u.db.outbox && u.db.outbox[u.jobs[t].row.id] == u.jobs[t].row
    {
      LiveStaysCurrent(w, e, t);
    }
  }

  /** Two report handlers for one intent never run at the same time. */
  lemma OneHandlerPerIntent(w: World, t: Token, s: Token)
    requires Rows(w) && HandlersCurrent(w)
    requires Live(w, t) && Live(w, s) && w.jobs[t].row.id == w.jobs[s].row.id
    ensures t == s
  {
  }

  // ----- send windows

  predicate Open(w: World, u: Token) {
    && u in w.windows
    && (w.windows[u].sending.Running? || (w.windows[u].sending.Waiting? && w.now < w.windows[u].leasedAt + LEASE_SLACK))
  }

  predicate WindowsTimed(w: World) {
    && (forall u :: u in w.windows && w.windows[u].sending.Running? ==>
          w.windows[u].sending.since < w.windows[u].leasedAt + LEASE_SLACK
          && w.now <= w.windows[u].sending.since + SEND_DEADLINE)
    && (forall u :: u in w.windows ==> u in w.used)
  }

  predicate Owns(w: World, u: Token)
    requires u in w.windows
  {
    var win := w.windows[u];
    && win.caseId in w.db.leases && w.db.leases[win.caseId].token == u
    && w.db.leases[win.caseId].expiresAt == win.leasedAt + Seconds(LEASE_SECONDS)
  }

  /** An open window still owns its case's lease. */
  ghost predicate WindowsOwned(w: World) {
    forall u :: Open(w, u) ==> Owns(w, u)
  }

  lemma WindowsTimedStep(w: World, e: Event)
    requires WindowsTimed(w)
    ensures WindowsTimed(Apply(w, e))
  {
    match e
    case Tick(_) =>
    case OutboxWrite(_) => assert Apply(w, e).windows == w.windows;
    case LeaseWrite(op) => LeaseOpTimed(w, op);
    case Handler(op) => WindowOpTimed(w, op);
    case CaseWrite(_) =>
  }

  lemma LeaseOpTimed(w: World, op: LeaseOp)
    requires WindowsTimed(w)
    ensures WindowsTimed(ApplyLease(w, op))
  {
    match op
    case Acquire(_, _, _) =>
    case _ => assert ApplyLease(w, op).windows == w.windows;
  }

  lemma WindowOpTimed(w: World, op: HandlerOp)
    requires WindowsTimed(w)
    ensures WindowsTimed(ApplyHandler(w, op))
  {
    match op
    case BeginSend(_) =>
    case EndSend(_) =>
    case ReadCase(_) =>
    case ReadAttention(_) =>
    case CheckAttention(_) =>
    case CheckReport(_, _, _) =>
    case _ =>
  }

  lemma OpenKeepsLease(w: World, op: LeaseOp, u: Token)
    requires WindowsTimed(w) && WindowsOwned(w) && Open(ApplyLease(w, op), u)
    ensures Owns(ApplyLease(w, op), u)
  {
    match op
    case Acquire(_, v, _) => assert u != v || ApplyLease(w, op) == w ==> Open(w, u) && Owns(w, u);
    case _ => assert Open(w, u);
  }

  lemma OpenBefore(w: World, e: Event, u: Token)
    requires !e.LeaseWrite? && Open(Apply(w, e), u)
    ensures Open(w, u) && Apply(w, e).windows[u].caseId == w.windows[u].caseId
    ensures Apply(w, e).windows[u].leasedAt == w.windows[u].leasedAt && Apply(w, e).db.leases == w.db.leases
  {
    match e
    case Handler(_) =>
    case OutboxWrite(_) =>
    case _ =>
  }

  lemma WindowsOwnedStep(w: World, e: Event)
    requires WindowsTimed(w) && WindowsOwned(w)
    ensures WindowsOwned(Apply(w, e))
  {
    forall u | Open(Apply(w, e), u) ensures Owns(Apply(w, e), u) {
      if e.LeaseWrite? {
        OpenKeepsLease(w, e.leaseOp, u);
      } else {
        OpenBefore(w, e, u);
      }
    }
  }

  /** Two send windows never overlap for one case. */
  lemma OneSendPerCase(w: World, u: Token, v: Token)
    requires WindowsOwned(w)
    requires Open(w, u) && Open(w, v) && w.windows[u].caseId == w.windows[v].caseId
    ensures u == v
  {
    assert Owns(w, u) && Owns(w, v);
  }

  // ----- whole runs

  ghost predicate Timed(w: World) {
    Rows(w) && HandlersTimed(w) && HandlersCurrent(w) && WindowsTimed(w) && WindowsOwned(w)
  }

  lemma {:induction false} TimedAlways(now: Instant, reminderSeconds: int, events: seq<Event>)
    ensures Timed(Run(Initial(now, reminderSeconds), events))
  {
    if events != [] {
      var w, e := Run(Initial(now, reminderSeconds), events[..|events| - 1]), events[|events| - 1];
      TimedAlways(now, reminderSeconds, events[..|events| - 1]);
      RowsStep(w, e);
      HandlersTimedStep(w, e);
      HandlersCurrentStep(w, e);
      WindowsTimedStep(w, e);
      WindowsOwnedStep(w, e);
    }
  }

  /** In every reachable state: running report handlers have distinct intents, and
      running sends have distinct cases. */
  lemma NoOverlap(now: Instant, reminderSeconds: int, events: seq<Event>)
    ensures var w := Run(Initial(now, reminderSeconds), events);
            && (forall t, s :: t in w.jobs && s in w.jobs && t != s
                  && w.jobs[t].handler.Running? && w.jobs[s].handler.Running?
                  && w.jobs[t].row.kind.ReportIntent? && w.jobs[s].row.kind.ReportIntent?
                  ==> w.jobs[t].row.id != w.jobs[s].row.id)
            && (forall u, v :: u in w.windows && v in w.windows && u != v
                  && w.windows[u].sending.Running? && w.windows[v].sending.Running?
                  ==> w.windows[u].caseId != w.windows[v].caseId)
  {
    var w := Run(Initial(now, reminderSeconds), events);
    TimedAlways(now, reminderSeconds, events);
    forall t, s | Live(w, t) && Live(w, s) && w.jobs[t].row.id == w.jobs[s].row.id ensures t == s {
      OneHandlerPerIntent(w, t, s);
    }
    forall u, v | Open(w, u) && Open(w, v) && w.windows[u].caseId == w.windows[v].caseId ensures u == v {
      OneSendPerCase(w, u, v);
    }
  }
}
