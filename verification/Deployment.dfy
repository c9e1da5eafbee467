/** A store shared by workers, as one worker sees it: its own calls are events of
    the delivery protocol, and between any two of them other workers may act. */
module Deployments {
  import opened Types
  import opened Attention
  import opened Lifecycle
  import opened Outbox
  import opened Delivery
  import opened Fencing
  import opened CommitLog
  import opened Rate
  import opened CaseStores

  // ----- interference

  /** An event of some other worker than the one that owns the tokens `mine`. */
  predicate Foreign(e: Event, mine: set<Token>) {
    match e
    case OutboxWrite(Claim(_, t, _)) => t !in mine
    case OutboxWrite(Fail(t, _)) => t !in mine
    case OutboxWrite(Finish(t, _)) => t !in mine
    case LeaseWrite(Acquire(t, u, _)) => t !in mine && u !in mine
    case LeaseWrite(Release(u)) => u !in mine
    case LeaseWrite(Commit(u, _)) => u !in mine
    case Handler(Start(t)) => t !in mine
    case Handler(Stop(t)) => t !in mine
    case Handler(BeginSend(u)) => u !in mine
    case Handler(EndSend(u)) => u !in mine
    case Handler(CheckAttention(u)) => u !in mine
    case Handler(CheckReport(u, _, _)) => u !in mine
    case Handler(ReadCase(u)) => u !in mine
    case Handler(ReadAttention(u)) => u !in mine
    case _ => true
  }

  /** Cases stay, and keep their source. */
  predicate SourcesKept(t: Table, u: Table) {
    forall c :: c in t.cases ==> c in u.cases && u.cases[c].source == t.cases[c].source
  }

  /** What a worker may rely on while others act. */
  predicate Rely(w: World, u: World, mine: set<Token>) {
    && w.now <= u.now && w.reminderSeconds == u.reminderSeconds && w.seen <= u.seen
    && (forall t :: t in mine && t in u.used ==> t in w.used)
    && (forall t :: t in mine && t in w.jobs ==> t in u.jobs && u.jobs[t] == w.jobs[t])
    && (forall x :: x in mine && x in w.windows ==> x in u.windows && u.windows[x] == w.windows[x])
    && (forall x :: x in u.windows && u.windows[x].claim in mine ==>
          x in w.windows && w.windows[x].claim == u.windows[x].claim)
    && SourcesKept(w.db.table, u.db.table)
  }

  lemma OpKeepsSources(t: Table, op: Op, now: Instant)
    ensures SourcesKept(t, ApplyOp(t, op, now))
  {
  }

  lemma EventKeepsSources(w: World, e: Event)
    ensures SourcesKept(w.db.table, Apply(w, e).db.table)
  {
    TableEffect(w, e);
    if e.CaseWrite? {
      OpKeepsSources(w.db.table, e.write, w.now);
    }
  }

  lemma ForeignStep(w: World, e: Event, mine: set<Token>)
    requires Foreign(e, mine)
    ensures Rely(w, Apply(w, e), mine)
  {
    EventKeepsSources(w, e);
    match e
    case OutboxWrite(op) => ForeignOutbox(w, op, mine);
    case LeaseWrite(op) => ForeignLease(w, op, mine);
    case Handler(op) => ForeignHandler(w, op, mine);
    case _ =>
  }

  lemma ForeignOutbox(w: World, op: OutboxOp, mine: set<Token>)
    requires Foreign(OutboxWrite(op), mine)
    ensures Rely(w, ApplyOutbox(w, op), mine)
  {
    if !op.Claim? {
      assert ApplyOutbox(w, op).jobs == w.jobs;
    }
  }

  lemma ForeignLease(w: World, op: LeaseOp, mine: set<Token>)
    requires Foreign(LeaseWrite(op), mine) && SourcesKept(w.db.table, ApplyLease(w, op).db.table)
    ensures Rely(w, ApplyLease(w, op), mine)
  {
    match op
    case Acquire(_, _, _) =>
    case _ => assert ApplyLease(w, op).windows == w.windows;
  }

  lemma ForeignHandler(w: World, op: HandlerOp, mine: set<Token>)
    requires Foreign(Handler(op), mine)
    ensures Rely(w, ApplyHandler(w, op), mine)
  {
    match op
    case Start(_) =>
    case Stop(_) =>
    case BeginSend(_) =>
    case EndSend(_) =>
    case ReadCase(_) =>
    case ReadAttention(_) =>
    case CheckAttention(_) =>
    case CheckReport(_, _, _) =>
  }

  lemma RelyTransitive(a: World, b: World, c: World, mine: set<Token>)
    requires Rely(a, b, mine) && Rely(b, c, mine)
    ensures Rely(a, c, mine)
  {
  }

  /** Every run of the other workers, of any length, is covered by the reliance. */
  lemma {:induction false} ForeignRuns(w: World, events: seq<Event>, mine: set<Token>)
    requires forall e :: e in events ==> Foreign(e, mine)
    ensures Rely(w, Run(w, events), mine)
  {
    if events != [] {
      var before, e := events[..|events| - 1], events[|events| - 1];
      ForeignRuns(w, before, mine);
      ForeignStep(Run(w, before), e, mine);
      RelyTransitive(w, Run(w, before), Run(w, events), mine);
    }
  }

  // ----- the shared state

  /** Tokens drawn so far are below `n`, stored rows are versions on record, and
      cases and deliveries are keyed by their case. */
  predicate Bounded(w: World, n: Token) {
    && n > NO_TOKEN
    && (forall t :: t in w.used ==> t < n)
    && (forall t :: t in w.jobs ==> t < n)
    && (forall u :: u in w.windows ==> u < n && w.windows[u].claim < n)
    && (forall id :: id in w.db.outbox ==> w.db.outbox[id] in w.seen)
    && KeyedById(w.db.table) && AttentionKeyed(w.db) && AttentionIsReport(w)
  }

  lemma AttentionKeyedStep(w: World, e: Event)
    requires AttentionKeyed(w.db)
    ensures AttentionKeyed(Apply(w, e).db)
  {
    LogEffect(w, e);
  }

  /** Only report intents carry an attention request. */
  predicate AttentionIsReport(w: World) {
    && (forall v :: v in w.seen && v.Attends() ==> v.kind.ReportIntent?)
    && (forall t :: t in w.jobs && w.jobs[t].row.Attends() ==> w.jobs[t].row.kind.ReportIntent?)
  }

  lemma AttentionIsReportStep(w: World, e: Event)
    requires AttentionIsReport(w)
    ensures AttentionIsReport(Apply(w, e))
  {
    Effect(w, e);
    if Written(w, e).Some? && Written(w, e).value.Attends() {
      WrittenIsReport(w, e);
    }
  }

  lemma WrittenIsReport(w: World, e: Event)
    requires AttentionIsReport(w) && Written(w, e).Some? && Written(w, e).value.Attends()
    ensures Written(w, e).value.kind.ReportIntent?
  {
    match e
    case OutboxWrite(op) => match op { case EnqueueIntent(_) => case Fail(_, _) => case Finish(_, _) => case _ => }
    case LeaseWrite(_) =>
    case _ =>
  }

  lemma WindowsBounded(w: World, e: Event, n: Token)
    requires forall u :: u in w.windows ==> u < n && w.windows[u].claim < n
    requires forall t :: t in w.jobs ==> t < n
    requires e.LeaseWrite? && e.leaseOp.Acquire? ==> e.leaseOp.lease < n
    ensures forall u :: u in Apply(w, e).windows ==> u < n && Apply(w, e).windows[u].claim < n
  {
    match e
    case LeaseWrite(op) => match op { case Acquire(_, _, _) => case _ => }
    case Handler(op) =>
      match op {
        case CheckAttention(_) =>
        case CheckReport(_, _, _) =>
        case ReadCase(_) =>
        case ReadAttention(_) =>
        case _ =>
      }
    case _ => assert Apply(w, e).windows == w.windows;
  }

  lemma TokensBounded(w: World, e: Event, n: Token)
    requires forall t :: t in w.used ==> t < n
    requires e.OutboxWrite? && e.outboxOp.Claim? ==> e.outboxOp.token < n
    requires e.LeaseWrite? && e.leaseOp.Acquire? ==> e.leaseOp.lease < n
    ensures forall t :: t in Apply(w, e).used ==> t < n
  {
    match e
    case LeaseWrite(op) => match op { case Acquire(_, _, _) => case _ => assert Apply(w, e).used == w.used; }
    case OutboxWrite(op) => if !op.Claim? { assert Apply(w, e).used == w.used; }
    case Handler(_) => assert Apply(w, e).used == w.used;
    case _ =>
  }

  lemma BoundedStep(w: World, e: Event, n: Token)
    requires Bounded(w, n)
    requires e.OutboxWrite? && e.outboxOp.Claim? ==> e.outboxOp.token < n
    requires e.LeaseWrite? && e.leaseOp.Acquire? ==> e.leaseOp.lease < n
    ensures Bounded(Apply(w, e), n) && w.seen <= Apply(w, e).seen
  {
    Effect(w, e);
    KeyedStep(w, e);
    AttentionIsReportStep(w, e);
    AttentionKeyedStep(w, e);
    TokensBounded(w, e, n);
    WindowsBounded(w, e, n);
  }

  class Deployment {
    const store: CaseStore
    const reminderSeconds: int
    /** Any property of the protocol state that every event keeps. */
    ghost const keeps: World -> bool
    /** Any relation that every run, from its first state to its last, satisfies. */
    ghost const leads: (World, World) -> bool
    var nextToken: Token
    ghost var world: World
    /** Row versions this worker has read. */
    ghost var snapshots: set<Intent>

    ghost predicate Inductive() {
      && (forall w, e :: keeps(w) ==> keeps(Apply(w, e)))
      && (forall w :: leads(w, w))
      && (forall w, u, e :: leads(w, u) ==> leads(w, Apply(u, e)))
      && (forall w, u, x :: leads(w, u) && leads(u, x) ==> leads(w, x))
    }

    ghost predicate Valid()
      reads this, store
    {
      && store.Contents() == world.db && store.now == world.now && world.reminderSeconds == reminderSeconds
      && Bounded(world, nextToken) && snapshots <= world.seen && Inductive() && keeps(world)
    }

    constructor (store: CaseStore, reminderSeconds: int, ghost keeps: World -> bool,
                 ghost leads: (World, World) -> bool)
      requires store.Contents() == Initial(store.now, reminderSeconds).db
      requires keeps(Initial(store.now, reminderSeconds)) && forall w, e :: keeps(w) ==> keeps(Apply(w, e))
      requires (forall w :: leads(w, w)) && (forall w, u, e :: leads(w, u) ==> leads(w, Apply(u, e)))
      requires forall w, u, x :: leads(w, u) && leads(u, x) ==> leads(w, x)
      ensures Valid() && this.store == store && this.reminderSeconds == reminderSeconds
      ensures this.keeps == keeps && this.leads == leads
      ensures world == Initial(store.now, reminderSeconds)
    {
      this.store, this.reminderSeconds, this.keeps, this.leads := store, reminderSeconds, keeps, leads;
      nextToken, snapshots := 1, {};
      world := Initial(store.now, reminderSeconds);
    }

    /** Other workers act. Callers know only what holds of every foreign run. */
    method Interfere(ghost mine: set<Token>)
      requires Valid()
      modifies this`nextToken, this`world, store
      ensures Valid() && Rely(old(world), world, mine) && leads(old(world), world) && old(nextToken) <= nextToken
    {
    }

    /** The same, while the clock stays before an instant. */
    method InterfereBriefly(ghost mine: set<Token>, ghost before: Instant)
      requires Valid() && world.now < before
      modifies this`nextToken, this`world, store
      ensures Valid() && Rely(old(world), world, mine) && leads(old(world), world) && old(nextToken) <= nextToken
              && world.now < before
    {
    }

    /** The worker reads the rows in a status. */
    method List(status: OutboxStatus) returns (rows: seq<Intent>)
      requires Valid()
      modifies this`snapshots
      ensures Valid() && old(snapshots) <= snapshots
      ensures forall r :: r in rows ==> r in snapshots && r in world.db.outbox.Values && r.status == status
      ensures OldestFirst(rows) && (Guarded() ==> forall i, j :: 0 <= i < j < |rows| ==> rows[i] != rows[j])
      ensures forall id :: id in world.db.outbox && world.db.outbox[id].status == status ==> world.db.outbox[id] in rows
    {
      ghost var ids;
      rows, ids := store.ListOutbox(status);
      if Guarded() {
        assert Rows(world);
        RowsDistinct(store.outbox, ids, rows);
      }
      forall id | id in world.db.outbox && world.db.outbox[id].status == status ensures world.db.outbox[id] in rows {
        assert store.outbox[id] == world.db.outbox[id];
      }
      snapshots := snapshots + set r | r in rows;
    }

    /** A fresh unique identifier. */
    method Draw() returns (t: Token)
      requires Valid()
      modifies this`nextToken
      ensures Valid() && t != NO_TOKEN && t < nextToken
      ensures t !in world.used && t !in world.jobs && t !in world.windows
      ensures forall u :: u in world.windows ==> world.windows[u].claim != t
    {
      t := nextToken;
      nextToken := nextToken + 1;
    }

    // ----- the worker's own steps, each one event

    method StoreClaim(v: Intent, t: Token, stamped: Instant) returns (stored: Option<Intent>)
      requires Valid() && v in snapshots && (v.status.Pending? || v.status.Failed?)
      requires t !in world.used && t != NO_TOKEN && t < nextToken && stamped <= world.now
      modifies this`world, store
      ensures Valid() && world == Apply(old(world), OutboxWrite(Claim(v, t, stamped)))
      ensures stored == OutboxRow(old(world), Claim(v, t, stamped))
    {
      var row := ClaimedRow(v, t, stamped);
      ghost var e := OutboxWrite(Claim(v, t, stamped));
      BoundedStep(world, e, nextToken);
      stored := store.UpdateOutboxIfStatus(row, v.status, Some(v.token));
      world := Apply(world, e);
    }

    method StoreRow(row: Intent, expected: OutboxStatus, token: Option<Token>, ghost op: OutboxOp)
      returns (stored: Option<Intent>)
      requires Valid() && !op.EnqueueIntent? && !op.Claim?
      requires OutboxRow(world, op) == CasRow(world, row, expected, token)
      modifies this`world, store
      ensures Valid() && world == Apply(old(world), OutboxWrite(op))
      ensures stored == OutboxRow(old(world), op)
    {
      BoundedStep(world, OutboxWrite(op), nextToken);
      stored := store.UpdateOutboxIfStatus(row, expected, token);
      world := Apply(world, OutboxWrite(op));
    }

    lemma IndexHolds()
      requires Valid() && Guarded()
      ensures Indexed(world.db)
    {
      assert Rows(world);
    }

    /** A new intent: the row of its key afterwards, unless its id was taken. */
    method EnqueueRow(i: Intent) returns (stored: Option<Intent>)
      requires Valid() && Guarded() && NewIntent(i)
      modifies this`world, store
      ensures Valid() && world == Apply(old(world), OutboxWrite(EnqueueIntent(i)))
      ensures Indexed(old(world).db) && Indexed(world.db)
      ensures stored == if i.key !in old(world).db.keys && i.id in old(world).db.outbox then None
                        else Some(FirstRow(old(world).db, i))
      ensures stored.Some? ==> OnFile(stored.value)
    {
      ghost var e := OutboxWrite(EnqueueIntent(i));
      IndexHolds();
      BoundedStep(world, e, nextToken);
      stored := store.EnqueueOutbox(i);
      world := Apply(world, e);
      IndexHolds();
    }

    /** A version on record has its key on file. */
    lemma KeyStays(v: Intent)
      requires Valid() && Guarded() && v in world.seen
      ensures Indexed(world.db) && v.key in world.db.keys && world.db.keys[v.key] == v.id && v.id in world.db.outbox
    {
      assert Rows(world);
      IndexHolds();
      assert SameIntent(v, world.db.outbox[v.id]);
    }

    /** Enqueueing a row whose key is on file reads the row that is there by then. */
    method ReadAgain(v: Intent) returns (stored: Intent)
      requires Valid() && Guarded() && v in world.seen
      modifies this`nextToken, this`world, store
      ensures Valid() && leads(old(world), world)
      ensures Indexed(world.db) && v.key in world.db.keys && stored == FirstRow(world.db, v)
    {
      Interfere({});
      KeyStays(v);
      var found := store.EnqueueOutbox(v);
      stored := found.value;
    }

    /** The reopening compare-and-set; when it is refused, the row of the key is read
        again, and other workers may act before that. */
    method ReopenRow(v: Intent, token: Option<Token>, ghost op: OutboxOp) returns (row: Intent)
      requires Valid() && Guarded() && v in world.seen && (op == ReopenAttention(v) || op == ReopenReport(v))
      requires OutboxRow(world, op) == CasRow(world, Reopened(v, world.now), Succeeded, token)
      modifies this`nextToken, this`world, store
      ensures Valid() && leads(old(world), world)
      ensures Matches(old(world).db, v.id, Succeeded, token) ==>
                world == Apply(old(world), OutboxWrite(op)) && row == Reopened(v, old(world).now)
      ensures !Matches(old(world).db, v.id, Succeeded, token) ==>
                Indexed(world.db) && v.key in world.db.keys && row == FirstRow(world.db, v)
    {
      var updated := StoreRow(Reopened(v, store.now), Succeeded, token, op);
      if updated.Some? {
        row := updated.value;
      } else {
        row := ReadAgain(v);
      }
    }

    /** The property kept includes the row invariants and the key index, and no run gives
        a claim back the row it lost. */
    ghost predicate Guarded() {
      && (forall w {:trigger Rows(w)} :: keeps(w) ==> Rows(w) && Indexed(w.db))
      && (forall w, u, id, t ::
            keeps(w) && leads(w, u) && t in w.used && Claimed(u, id, t) ==> Claimed(w, id, t))
    }

    /** The row is the stored row of its key. */
    ghost predicate OnFile(v: Intent)
      reads this
    {
      v.key in world.db.keys && world.db.keys[v.key] in world.db.outbox && world.db.outbox[world.db.keys[v.key]] == v
    }

    method Acquire(intent: Intent, sequence: nat, u: Token) returns (r: LeaseResult)
      requires Valid() && intent.token in world.jobs && world.jobs[intent.token].row == intent
               && intent.token != NO_TOKEN
      requires world.jobs[intent.token].handler.Running? && intent.kind.ReportIntent?
      requires u !in world.used && u != NO_TOKEN && u < nextToken
      modifies this`world, store
      ensures Valid() && world == Apply(old(world), LeaseWrite(LeaseOp.Acquire(intent.token, u, sequence)))
      ensures r == if CanLease(old(world).db, old(world).now, intent, sequence) then Leased(u) else Refused
    {
      ghost var e := LeaseWrite(LeaseOp.Acquire(intent.token, u, sequence));
      BoundedStep(world, e, nextToken);
      r := store.ClaimAttention(intent, sequence, LEASE_SECONDS, u);
      world := Apply(world, e);
    }

    method ReleaseLease(caseId: string, u: Token)
      requires Valid() && u in world.windows && world.windows[u].caseId == caseId && world.windows[u].sending.Over?
      modifies this`world, store
      ensures Valid() && world == Apply(old(world), LeaseWrite(Release(u)))
    {
      BoundedStep(world, LeaseWrite(Release(u)), nextToken);
      store.ReleaseAttention(caseId, u);
      world := Apply(world, LeaseWrite(Release(u)));
    }

    method Complete(row: Intent, delivery: AttentionDelivery, u: Token, report: Option<Signature>)
      returns (r: Completion)
      requires Valid() && Committable(world, u, delivery.deliveredAt)
      requires row == CommitRow(world, u) && delivery == CommitDelivery(world.windows[u], delivery.deliveredAt)
      requires report == world.windows[u].check.value.report && row.caseId == delivery.caseId
               && row.token == world.windows[u].claim
      modifies this`world, store
      ensures Valid() && world == Apply(old(world), LeaseWrite(Commit(u, delivery.deliveredAt)))
      ensures r == if Commits(old(world), u, delivery.deliveredAt) then Committed(row) else Lost
    {
      ghost var e := LeaseWrite(Commit(u, delivery.deliveredAt));
      BoundedStep(world, e, nextToken);
      r := store.CompleteAttention(row, delivery, delivery.sequence - 1, row.token, u, report);
      world := Apply(world, e);
    }

    method RecordReported(caseId: string, signature: Signature)
      requires Valid() && caseId in world.db.table.cases
      modifies this`world, store
      ensures Valid() && world == Apply(old(world), CaseWrite(MarkReported(caseId, signature)))
    {
      ghost var e := CaseWrite(MarkReported(caseId, signature));
      BoundedStep(world, e, nextToken);
      store.cases := store.cases[caseId := ReportedCase(store.cases[caseId], signature, store.now)];
      world := Apply(world, e);
    }

    /** Steps of a handler that write nothing to the store. */
    ghost method Step(op: HandlerOp)
      requires Valid()
      modifies this`world
      ensures Valid() && world == Apply(old(world), Handler(op))
    {
      BoundedStep(world, Handler(op), nextToken);
      HandlerKeepsStore(world, op);
      world := Apply(world, Handler(op));
    }
  }

  lemma HandlerKeepsStore(w: World, op: HandlerOp)
    ensures ApplyHandler(w, op).db == w.db && ApplyHandler(w, op).now == w.now
    ensures ApplyHandler(w, op).reminderSeconds == w.reminderSeconds
  {
    match op
    case ReadCase(_) =>
    case ReadAttention(_) =>
    case CheckAttention(_) =>
    case CheckReport(_, _, _) =>
    case _ =>
  }
}
