/** The delivery rows of the store and its atomic operations on them
    (app/cases/postgres.py): the outbox, the attention leases and the attention
    deliveries, beside the case table. */
module Outbox {
  import opened Types
  import opened Attention
  import opened Lifecycle

  datatype IntentKind = ReportIntent | EngineeringHandoff | OtherEffect
  datatype OutboxStatus = Pending | InProgress | Succeeded | Failed | Abandoned

  /** Why a completed intent sent nothing. */
  datatype Suppression = Sent | NoLongerDue | AttentionVerbosity | ReminderNoLongerDue | ReportVerbosity

  datatype Payload = Payload(
    request: Option<AttentionRequest>, reminderSince: Option<Instant>,
    suppressed: Suppression, delivered: Option<Kind>)

  /** Claim and lease tokens are unique identifiers; 0 is the empty token. */
  type Token = nat
  const NO_TOKEN: Token := 0

  datatype Intent = Intent(
    id: string, kind: IntentKind, caseId: string, key: string, signature: Option<Signature>,
    status: OutboxStatus, attempts: nat, token: Token, claimExpiresAt: Option<Instant>,
    createdAt: Instant, nextAttemptAt: Option<Instant>, payload: Payload)
  {
    predicate Attends() {
      payload.request.Some?
    }
  }

  datatype Lease = Lease(token: Token, outboxId: string, claim: Token, expiresAt: Instant)

  datatype Db = Db(
    table: Table,
    outbox: map<string, Intent>,
    keys: map<string, string>,
    leases: map<string, Lease>,
    attention: map<string, AttentionDelivery>)

  /** The one index over idempotency keys. */
  predicate Indexed(db: Db) {
    && (forall k :: k in db.keys ==> db.keys[k] in db.outbox && db.outbox[db.keys[k]].key == k)
    && (forall id :: id in db.outbox ==>
          db.outbox[id].id == id && db.outbox[id].key in db.keys && db.keys[db.outbox[id].key] == id)
  }

  function Sequence(db: Db, caseId: string): nat {
    if caseId in db.attention then db.attention[caseId].sequence else 0
  }

  function Previous(db: Db, caseId: string): Option<AttentionDelivery> {
    if caseId in db.attention then Some(db.attention[caseId]) else None
  }

  /** `enqueue_outbox`: the first intent of a key wins. */
  function Enqueue(db: Db, intent: Intent): Db {
    if intent.key in db.keys || intent.id in db.outbox then db
    else db.(outbox := db.outbox[intent.id := intent], keys := db.keys[intent.key := intent.id])
  }

  /** The row that answers an enqueue: the first of its key. */
  function FirstRow(db: Db, intent: Intent): Intent
    requires Indexed(db)
  {
    if intent.key in db.keys then db.outbox[db.keys[intent.key]] else intent
  }

  /** The guard of `update_outbox_if_status`. */
  predicate Matches(db: Db, id: string, expected: OutboxStatus, token: Option<Token>) {
    && id in db.outbox
    && db.outbox[id].status == expected
    && (token.None? || db.outbox[id].token == token.value)
  }

  function Write(db: Db, intent: Intent): Db {
    db.(outbox := db.outbox[intent.id := intent])
  }

  predicate LeaseFree(db: Db, caseId: string, now: Instant) {
    caseId in db.leases ==> db.leases[caseId].expiresAt <= now
  }

  /** The guards of `claim_attention`. */
  predicate CanLease(db: Db, now: Instant, intent: Intent, expectedSequence: nat) {
    && intent.caseId in db.table.cases
    && Matches(db, intent.id, InProgress, Some(intent.token))
    && db.outbox[intent.id].caseId == intent.caseId
    && Sequence(db, intent.caseId) == expectedSequence
    && LeaseFree(db, intent.caseId, now)
  }

  function GrantLease(db: Db, now: Instant, intent: Intent, leaseSeconds: int, token: Token): Db {
    db.(leases := db.leases[intent.caseId := Lease(token, intent.id, intent.token, now + Seconds(leaseSeconds))])
  }

  function ReleaseLease(db: Db, caseId: string, token: Token): Db {
    if caseId in db.leases && db.leases[caseId].token == token then db.(leases := db.leases - {caseId}) else db
  }

  /** The guards of `complete_attention`. */
  predicate CanComplete(db: Db, now: Instant, intent: Intent, delivery: AttentionDelivery,
                        expectedSequence: nat, claim: Token, lease: Token)
  {
    && delivery.caseId in db.table.cases
    && Matches(db, intent.id, InProgress, Some(claim))
    && db.outbox[intent.id].caseId == delivery.caseId
    && Sequence(db, delivery.caseId) == expectedSequence
    && delivery.caseId in db.leases
    && db.leases[delivery.caseId].token == lease
    && db.leases[delivery.caseId].outboxId == intent.id
    && db.leases[delivery.caseId].claim == claim
    && db.leases[delivery.caseId].expiresAt > now
  }

  /** The malformed completions the operation rejects before touching the store. */
  predicate WellFormedCompletion(intent: Intent, delivery: AttentionDelivery, expectedSequence: nat) {
    intent.status.Succeeded? && intent.caseId == delivery.caseId && delivery.sequence == expectedSequence + 1
  }

  /** Report fields move onto the case, the delivery and the outbox row are
      written and the lease is dropped, all in one step. */
  function Completed(db: Db, intent: Intent, delivery: AttentionDelivery, report: Option<Signature>): Db
    requires delivery.caseId in db.table.cases
  {
    var c := db.table.cases[delivery.caseId];
    Write(db, intent).(
      table := if report.None? then db.table
               else
                 var stamped := ReportedCase(c, report.value, delivery.deliveredAt);
                 db.table.(cases := db.table.cases[delivery.caseId := stamped]),
      attention := db.attention[delivery.caseId := delivery],
      leases := db.leases - {delivery.caseId})
  }

  predicate PendingAttention(db: Db, caseId: string) {
    exists id :: id in db.outbox && db.outbox[id].caseId == caseId && db.outbox[id].kind.ReportIntent?
      && (db.outbox[id].status.Pending? || db.outbox[id].status.Failed? || db.outbox[id].status.InProgress?)
      && db.outbox[id].Attends()
  }

  /** Whether a claim has lapsed; a claim without an expiry runs from the intent's creation. */
  predicate ClaimExpired(intent: Intent, now: Instant) {
    (if intent.claimExpiresAt.Some? then intent.claimExpiresAt.value else intent.createdAt + Seconds(600)) <= now
  }

  predicate IsDue(intent: Intent, now: Instant) {
    intent.nextAttemptAt.None? || intent.nextAttemptAt.value <= now
  }
}
