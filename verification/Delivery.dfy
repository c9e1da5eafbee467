/** The delivery protocol as a state machine: any number of workers, crashes,
    stale snapshots, expiry recovery, reopening and abandonment, with case writes
    in between. A worker is known by the claim token it drew. A crash ends the
    worker's send and handler where they stand, and the worker takes no further step. */
module Delivery {
  import opened Types
  import opened Attention
  import opened Lifecycle
  import opened Outbox

  const HANDLER_DEADLINE := Seconds(180)
  const CLAIM_SPAN := Seconds(600)
  const CLAIM_SLACK := Seconds(420)
  const SEND_DEADLINE := Seconds(60)
  const LEASE_SECONDS := 120
  const LEASE_SLACK := Seconds(60)

  /** A timed piece of work: not begun, running since an instant, or over. */
  datatype Span = Waiting | Running(since: Instant) | Over

  /** What a worker holds after a successful claim: the row the claim returned,
      the clock reading its expiry was computed from, and its handler call. */
  datatype Job = Job(row: Intent, stamped: Instant, handler: Span)

  /** The eligibility check a handler made inside its send window. */
  datatype Check = Check(
    kind: Kind, generation: nat, phase: Phase, severity: Severity, at: Instant, report: Option<Signature>)

  /** An attention lease as its owner knows it, with what it read inside its send
      window, one read at a time: the case, then the last delivery. */
  datatype Window = Window(
    claim: Token, caseId: string, sequence: nat, leasedAt: Instant, sending: Span,
    shown: Option<AtomicCase>, last: Option<Option<AttentionDelivery>>, check: Option<Check>)

  /** The database, the clock, and history: the tokens drawn, every version of
      every row (what a stale snapshot may hold), the workers' claims and leases,
      and the deliveries committed per case. */
  datatype World = World(
    db: Db, now: Instant, reminderSeconds: int,
    used: set<Token>, seen: set<Intent>,
    jobs: map<Token, Job>, windows: map<Token, Window>,
    log: map<string, seq<AttentionDelivery>>)

  datatype OutboxOp =
    | EnqueueIntent(intent: Intent)
    | Claim(snapshot: Intent, token: Token, stamped: Instant)
    | Fail(claim: Token, retryAt: Instant)
    | Finish(claim: Token, outcome: Suppression)
    | Recover(snapshot: Intent, checkedAt: Instant)
    | ReopenAttention(snapshot: Intent)
    | ReopenReport(snapshot: Intent)
    | Abandon(snapshot: Intent)

  datatype LeaseOp =
    | Acquire(claim: Token, lease: Token, sequence: nat)
    | Release(lease: Token)
    | Commit(lease: Token, deliveredAt: Instant)

  datatype HandlerOp =
    | Start(claim: Token)
    | Stop(claim: Token)
    | BeginSend(lease: Token)
    | EndSend(lease: Token)
    | ReadCase(lease: Token)
    | ReadAttention(lease: Token)
    | CheckAttention(lease: Token)
    | CheckReport(lease: Token, attentionEnabled: bool, pending: bool)

  datatype Event =
    | Tick(elapsed: nat)
    | CaseWrite(write: Op)
    | OutboxWrite(outboxOp: OutboxOp)
    | LeaseWrite(leaseOp: LeaseOp)
    | Handler(handlerOp: HandlerOp)

  function LogOf(w: World, caseId: string): seq<AttentionDelivery> {
    if caseId in w.log then w.log[caseId] else []
  }

  // ----- outbox writes

  /** A new intent as the services build it. */
  predicate NewIntent(i: Intent) {
    && i.status.Pending? && i.attempts == 0 && i.token == NO_TOKEN && i.claimExpiresAt.None?
    && i.payload.suppressed.Sent? && i.payload.delivered.None?
    && (i.Attends() ==> i.kind.ReportIntent? && i.payload.reminderSince.None?
                        && i.key == RequestKeyOf(i.caseId, i.payload.request.value)
                        && i.payload.request.value.key == i.key)
    && (!i.Attends() ==> !("attention:" <= i.key))
  }

  function RequestKeyOf(caseId: string, r: AttentionRequest): string {
    RequestKey(caseId, r.generation, r.phase, r.severity, r.expectedSequence, r.kind)
  }

  function ClaimedRow(snapshot: Intent, token: Token, stamped: Instant): Intent {
    snapshot.(status := InProgress, attempts := snapshot.attempts + 1, token := token,
              claimExpiresAt := Some(stamped + CLAIM_SPAN))
  }

  /** Suppressions a handler may report for a row. */
  predicate OutcomeFits(row: Intent, outcome: Suppression) {
    if row.Attends() then outcome.NoLongerDue? || outcome.AttentionVerbosity?
    else outcome.Sent? || outcome.ReminderNoLongerDue? || outcome.ReportVerbosity?
  }

  function Reopened(snapshot: Intent, now: Instant): Intent {
    snapshot.(status := Pending, nextAttemptAt := Some(now), payload := snapshot.payload.(suppressed := Sent))
  }

  predicate HandlerOver(w: World, claim: Token) {
    claim in w.jobs && w.jobs[claim].handler.Over?
  }

  /** The row an operation stores, if its checks and the compare-and-set pass.
      `None` for the token means the token is not compared. */
  function CasRow(w: World, row: Intent, expected: OutboxStatus, token: Option<Token>): Option<Intent> {
    if Matches(w.db, row.id, expected, token) then Some(row) else None
  }

  function OutboxRow(w: World, op: OutboxOp): Option<Intent> {
    match op
    case EnqueueIntent(i) =>
      if NewIntent(i) && i.key !in w.db.keys && i.id !in w.db.outbox then Some(i) else None
    case Claim(v, t, stamped) =>
      if v in w.seen && (v.status.Pending? || v.status.Failed?) && t !in w.used && t != NO_TOKEN && stamped <= w.now
      then CasRow(w, ClaimedRow(v, t, stamped), v.status, Some(v.token)) else None
    case Fail(t, retryAt) =>
      if HandlerOver(w, t)
      then
        var row := w.jobs[t].row.(status := OutboxStatus.Failed, nextAttemptAt := Some(retryAt));
        CasRow(w, row, InProgress, Some(t))
      else None
    case Finish(t, outcome) =>
      if HandlerOver(w, t) && OutcomeFits(w.jobs[t].row, outcome)
      then
        var row := w.jobs[t].row;
        CasRow(w, row.(status := Succeeded, payload := row.payload.(suppressed := outcome)), InProgress, Some(t))
      else None
    case Recover(v, checkedAt) =>
      if v in w.seen && v.kind.ReportIntent? && v.status.InProgress? && checkedAt <= w.now && ClaimExpired(v, checkedAt)
      then CasRow(w, v.(status := Pending, nextAttemptAt := Some(w.now)), InProgress, Some(v.token)) else None
    case ReopenAttention(v) =>
      if v in w.seen && v.Attends() && v.status.Succeeded?
         && (v.payload.suppressed.NoLongerDue? || v.payload.suppressed.AttentionVerbosity?)
      then CasRow(w, Reopened(v, w.now), Succeeded, Some(v.token)) else None
    case ReopenReport(v) =>
      if v in w.seen && v.status.Succeeded?
         && (v.payload.suppressed.ReminderNoLongerDue? || v.payload.suppressed.ReportVerbosity?)
      then CasRow(w, Reopened(v, w.now), Succeeded, None) else None
    case Abandon(v) =>
      if v in w.seen && v.kind.EngineeringHandoff? && !v.status.Succeeded? && !v.status.Abandoned?
      then CasRow(w, v.(status := Abandoned), v.status, None) else None
  }

  function ApplyOutbox(w: World, op: OutboxOp): World {
    match OutboxRow(w, op)
    case None => w
    case Some(row) =>
      var stored := w.(seen := w.seen + {row},
                       db := if op.EnqueueIntent? then Enqueue(w.db, row) else Write(w.db, row));
      if op.Claim?
      then stored.(used := w.used + {op.token}, jobs := w.jobs[op.token := Job(row, op.stamped, Waiting)])
      else stored
  }

  // ----- leases

  predicate Committable(w: World, u: Token, deliveredAt: Instant) {
    && u in w.windows && w.windows[u].sending.Over? && w.windows[u].check.Some?
    && HandlerOver(w, w.windows[u].claim)
    && deliveredAt <= w.now
    && (w.windows[u].check.value.kind.New? || w.windows[u].check.value.at <= deliveredAt)
  }

  function CommitRow(w: World, u: Token): Intent
    requires u in w.windows && w.windows[u].claim in w.jobs && w.windows[u].check.Some?
  {
    var row := w.jobs[w.windows[u].claim].row;
    row.(status := Succeeded,
         payload := row.payload.(delivered := if row.Attends() then Some(w.windows[u].check.value.kind) else None))
  }

  function CommitDelivery(win: Window, deliveredAt: Instant): AttentionDelivery
    requires win.check.Some?
  {
    var k := win.check.value;
    AttentionDelivery(win.caseId, k.generation, k.phase, k.severity, deliveredAt, win.sequence + 1)
  }

  predicate Commits(w: World, u: Token, deliveredAt: Instant) {
    && Committable(w, u, deliveredAt)
    && CanComplete(w.db, w.now, CommitRow(w, u), CommitDelivery(w.windows[u], deliveredAt),
                   w.windows[u].sequence, w.windows[u].claim, u)
  }

  function ApplyLease(w: World, op: LeaseOp): World {
    match op
    case Acquire(t, u, sequence) =>
      if t in w.jobs && w.jobs[t].handler.Running? && w.jobs[t].row.kind.ReportIntent? && u !in w.used && u != NO_TOKEN
         && CanLease(w.db, w.now, w.jobs[t].row, sequence)
      then w.(db := GrantLease(w.db, w.now, w.jobs[t].row, LEASE_SECONDS, u), used := w.used + {u},
              windows := w.windows[u := Window(t, w.jobs[t].row.caseId, sequence, w.now, Waiting, None, None, None)])
      else w
    case Release(u) =>
      if u in w.windows && w.windows[u].sending.Over? then w.(db := ReleaseLease(w.db, w.windows[u].caseId, u)) else w
    case Commit(u, deliveredAt) =>
      if Commits(w, u, deliveredAt) then
        var win := w.windows[u];
        var d := CommitDelivery(win, deliveredAt);
        w.(db := Completed(w.db, CommitRow(w, u), d, win.check.value.report),
           seen := w.seen + {CommitRow(w, u)},
           log := w.log[win.caseId := LogOf(w, win.caseId) + [d]])
      else w
  }

  // ----- handlers

  function Checking(w: World, u: Token, c: Check): World
    requires u in w.windows
  {
    w.(windows := w.windows[u := w.windows[u].(check := Some(c))])
  }

  predicate MayRead(w: World, u: Token) {
    u in w.windows && w.windows[u].sending.Running? && w.windows[u].check.None?
  }

  predicate MayCheck(w: World, u: Token) {
    && MayRead(w, u) && w.windows[u].claim in w.jobs
    && w.windows[u].shown.Some? && w.windows[u].shown.value.Monitored()
  }

  /** The attention handler's second look: by what it read, the request must still be
      exactly what is owed now. */
  predicate StillOwed(w: World, u: Token)
    requires MayCheck(w, u)
  {
    var win, row := w.windows[u], w.jobs[w.windows[u].claim].row;
    && row.Attends()
    && win.sequence == row.payload.request.value.expectedSequence
    && win.last.Some?
    && AttentionDue(win.shown.value, win.last.value, w.now, w.reminderSeconds) == Due(row.payload.request.value)
  }

  function SignatureOf(row: Intent, c: AtomicCase): Signature {
    if row.signature.Some? then row.signature.value else c.ReportSignature()
  }

  /** A reminder still matches the report it was requested after, and is due. */
  predicate StillDue(row: Intent, seen: AtomicCase, now: Instant, reminderSeconds: int, enabled: bool) {
    && row.payload.reminderSince == seen.lastReportedAt
    && SignatureOf(row, seen) == seen.ReportSignature()
    && ShouldRemind(seen, now, reminderSeconds, enabled)
  }

  /** The report handler's look under the lease: a first report needs no earlier
      delivery, a reminder must still be due against the later of the two clocks.
      `pending` is what an earlier read saw of outstanding attention. */
  predicate ReportAllowed(w: World, u: Token, attentionEnabled: bool, pending: bool)
    requires MayCheck(w, u)
  {
    var win, row := w.windows[u], w.jobs[w.windows[u].claim].row;
    && !row.Attends()
    && if row.payload.reminderSince.None? then attentionEnabled && win.sequence == 0
       else
         && win.last.Some?
         && var seen := LegacyProjection(win.shown.value, win.last.value, pending);
            seen.Some? && StillDue(row, seen.value, w.now, w.reminderSeconds, attentionEnabled)
  }

  function ApplyHandler(w: World, op: HandlerOp): World {
    match op
    case Start(t) =>
      if t in w.jobs && w.jobs[t].handler.Waiting? && w.now < w.jobs[t].stamped + CLAIM_SLACK
      then w.(jobs := w.jobs[t := w.jobs[t].(handler := Running(w.now))]) else w
    case Stop(t) =>
      if t in w.jobs && w.jobs[t].handler.Running?
         && (forall u :: u in w.windows && w.windows[u].claim == t ==> w.windows[u].sending.Over?)
      then w.(jobs := w.jobs[t := w.jobs[t].(handler := Over)]) else w
    case BeginSend(u) =>
      if u in w.windows && w.windows[u].sending.Waiting? && w.now < w.windows[u].leasedAt + LEASE_SLACK
      then w.(windows := w.windows[u := w.windows[u].(sending := Running(w.now))]) else w
    case EndSend(u) =>
      if u in w.windows then w.(windows := w.windows[u := w.windows[u].(sending := Over)]) else w
    case ReadCase(u) =>
      if MayRead(w, u) && w.windows[u].caseId in w.db.table.cases
      then
        var c := w.db.table.cases[w.windows[u].caseId];
        w.(windows := w.windows[u := w.windows[u].(shown := Some(c), last := None)])
      else w
    case ReadAttention(u) =>
      if MayRead(w, u) && w.windows[u].shown.Some?
      then w.(windows := w.windows[u := w.windows[u].(last := Some(Previous(w.db, w.windows[u].caseId)))]) else w
    case CheckAttention(u) =>
      if MayCheck(w, u) && StillOwed(w, u) then
        var r := w.jobs[w.windows[u].claim].row.payload.request.value;
        Checking(w, u, Check(r.kind, r.generation, r.phase, r.severity, w.now, None))
      else w
    case CheckReport(u, enabled, pending) =>
      if MayCheck(w, u) && ReportAllowed(w, u, enabled, pending) then
        var row, c := w.jobs[w.windows[u].claim].row, w.windows[u].shown.value;
        Checking(w, u, Check(if row.payload.reminderSince.None? then New else Reminder,
                             c.generation, Firing, c.severity, w.now, Some(SignatureOf(row, c))))
      else w
  }

  /** Deadlines cancel: the clock does not pass the end of a running handler or send. */
  predicate MayTick(w: World, elapsed: nat) {
    && (forall t :: t in w.jobs && w.jobs[t].row.kind.ReportIntent? && w.jobs[t].handler.Running? ==>
          w.now + elapsed <= w.jobs[t].handler.since + HANDLER_DEADLINE)
    && (forall u :: u in w.windows && w.windows[u].sending.Running? ==>
          w.now + elapsed <= w.windows[u].sending.since + SEND_DEADLINE)
  }

  function Apply(w: World, e: Event): World {
    match e
    case Tick(elapsed) => if MayTick(w, elapsed) then w.(now := w.now + elapsed) else w
    case CaseWrite(op) => w.(db := w.db.(table := ApplyOp(w.db.table, op, w.now)))
    case OutboxWrite(op) => ApplyOutbox(w, op)
    case LeaseWrite(op) => ApplyLease(w, op)
    case Handler(op) => ApplyHandler(w, op)
  }

  function Initial(now: Instant, reminderSeconds: int): World {
    World(Db(Table(map[], map[]), map[], map[], map[], map[]), now, reminderSeconds, {}, {}, map[], map[], map[])
  }

  function Run(w: World, events: seq<Event>): World {
    if events == [] then w else Apply(Run(w, events[..|events| - 1]), events[|events| - 1])
  }
}
