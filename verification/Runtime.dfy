/** The reminder loop of the case runtime (app/cases/runtime.py): two cursor walks
    and the switch between the schedulers. */
module Runtimes {
  import opened Types
  import opened Attention
  import opened Lifecycle
  import opened Outbox
  import opened Paging
  import opened Delivery
  import opened Deployments
  import opened CaseStores
  import opened CaseServices
  import opened Scheduler
  import opened Turns

  function BatchLimit(limit: int): (r: nat)
    ensures 1 <= r <= 1000 && (1 <= limit <= 1000 ==> r == limit) && (limit > 1000 ==> r == 1000)
  {
    Max(1, Min(limit, 1000))
  }

  /** What became of the cases of one page: each was looked at once, in order, and
      only an exception ends the page early. */
  predicate PageDone(outcomes: seq<Queueing>, page: seq<string>, raised: bool) {
    && |outcomes| <= |page|
    && (!raised ==> |outcomes| == |page|)
    && (forall k :: 0 <= k < |outcomes| ==> (outcomes[k].Raised? ==> raised && k == |outcomes| - 1))
    && (raised ==> outcomes != [] && outcomes[|outcomes| - 1].Raised?)
  }

  function QueuedCount(outcomes: seq<Queueing>): nat {
    if outcomes == [] then 0
    else QueuedCount(outcomes[..|outcomes| - 1]) + if outcomes[|outcomes| - 1].Queued? then 1 else 0
  }

  /** The count of a page is that of the cases something was queued for. */
  lemma {:induction false} CountsQueued(outcomes: seq<Queueing>)
    ensures QueuedCount(outcomes) == |set k | 0 <= k < |outcomes| && outcomes[k].Queued?|
  {
    if outcomes != [] {
      var n := |outcomes| - 1;
      CountsQueued(outcomes[..n]);
      var before := set k | 0 <= k < n && outcomes[..n][k].Queued?;
      var all := set k | 0 <= k < |outcomes| && outcomes[k].Queued?;
      assert all == if outcomes[n].Queued? then before + {n} else before;
    }
  }

  lemma QueuedOneMore(outcomes: seq<Queueing>, q: Queueing)
    ensures QueuedCount(outcomes + [q]) == QueuedCount(outcomes) + if q.Queued? then 1 else 0
  {
    assert (outcomes + [q])[..|outcomes|] == outcomes;
  }

  predicate NoneRaised(outcomes: seq<Queueing>) {
    forall k :: 0 <= k < |outcomes| ==> !outcomes[k].Raised?
  }

  /** A page in progress: its first cases had their turns, and none raised. */
  predicate PageSoFar<T(!new)>(done: (nat, Queueing, T) -> bool, after: (T, T) -> bool, outcomes: seq<Queueing>,
                               turns: seq<T>, count: nat)
  {
    InSequence(done, after, outcomes, turns) && NoneRaised(outcomes) && count == QueuedCount(outcomes)
  }

  /** A page that is over. */
  predicate PageOver<T(!new)>(done: (nat, Queueing, T) -> bool, after: (T, T) -> bool, outcomes: seq<Queueing>,
                              turns: seq<T>, count: nat, page: seq<string>, raised: bool)
  {
    InSequence(done, after, outcomes, turns) && PageDone(outcomes, page, raised) && count == QueuedCount(outcomes)
  }

  lemma OneMoreTurn<T(!new)>(done: (nat, Queueing, T) -> bool, after: (T, T) -> bool, outcomes: seq<Queueing>,
                             turns: seq<T>, count: nat, page: seq<string>, q: Queueing, t: T)
    requires PageSoFar(done, after, outcomes, turns, count) && |outcomes| < |page| && done(|turns|, q, t)
    requires turns != [] ==> after(turns[|turns| - 1], t)
    ensures if q.Raised? then PageOver(done, after, outcomes + [q], turns + [t], count, page, true)
            else PageSoFar(done, after, outcomes + [q], turns + [t], count + if q.Queued? then 1 else 0)
  {
    QueuedOneMore(outcomes, q);
    SequenceOneMore(done, after, outcomes, turns, q, t);
  }

  lemma WholePage<T(!new)>(done: (nat, Queueing, T) -> bool, after: (T, T) -> bool, outcomes: seq<Queueing>,
                           turns: seq<T>, count: nat, page: seq<string>)
    requires PageSoFar(done, after, outcomes, turns, count) && |outcomes| == |page|
    ensures PageOver(done, after, outcomes, turns, count, page, false)
  {
  }

  /** The turn of the case in a place on the page. */
  ghost function EnqueueTurn(env: Deployment, cases: seq<AtomicCase>, at: Instant, ids: nat -> string,
                             allows: AttentionRequest -> bool): (nat, Queueing, Turn) -> bool
  {
    (k: nat, q, t) =>
      k < |cases| && InTurn(env, t) && Enqueued(cases[k], q, t, at, ids(k), allows, env.reminderSeconds)
  }

  ghost function EnqueueAfter(env: Deployment): (Turn, Turn) -> bool {
    (t: Turn, u: Turn) => env.leads(t.after, u.read)
  }

  predicate AsStored(db: Db, page: seq<string>, cases: seq<AtomicCase>) {
    |cases| == |page| && forall k :: 0 <= k < |page| ==>
          page[k] in db.table.cases && cases[k] == db.table.cases[page[k]]
  }

  /** The cases of a page as they were when it was read. */
  method Snapshots(store: CaseStore, page: seq<string>) returns (cases: seq<AtomicCase>)
    requires forall id :: id in page ==> id in store.cases
    ensures AsStored(store.Contents(), page, cases)
  {
    cases := seq(|page|, k requires 0 <= k < |page| && page[k] in store.cases reads store => store.cases[page[k]]);
  }

  method EnqueueNext(env: Deployment, cases: seq<AtomicCase>, k: nat, at: Instant, ids: nat -> string,
                     allows: AttentionRequest -> bool)
    returns (q: Queueing, ghost t: Turn)
    requires env.Valid() && env.Guarded() && k < |cases|
    modifies env`nextToken, env`world, env.store
    ensures env.Valid() && env.leads(old(env.world), t.read) && t.after == env.world
    ensures EnqueueTurn(env, cases, at, ids, allows)(k, q, t)
  {
    env.Interfere({});
    q, t := EnqueueAttention(env, cases[k], at, ids(k), allows);
  }

  /** The cases of a page, one after another, with other workers in between. */
  method EnqueuePage(env: Deployment, page: seq<string>, cases: seq<AtomicCase>, at: Instant,
                     ids: nat -> string, allows: AttentionRequest -> bool)
    returns (count: nat, raised: bool, ghost outcomes: seq<Queueing>, ghost turns: seq<Turn>)
    requires env.Valid() && env.Guarded() && |cases| == |page|
    modifies env`nextToken, env`world, env.store
    ensures env.Valid()
    ensures PageOver(EnqueueTurn(env, cases, at, ids, allows), EnqueueAfter(env), outcomes, turns, count, page, raised)
    ensures turns != [] ==> env.leads(old(env.world), turns[0].read)
  {
    count, raised, outcomes, turns := 0, false, [], [];
    ghost var done, after := EnqueueTurn(env, cases, at, ids, allows), EnqueueAfter(env);
    for k := 0 to |page|
      invariant env.Valid() && |outcomes| == |turns| == k && PageSoFar(done, after, outcomes, turns, count)
      invariant if k == 0 then env.world == old(env.world)
                else env.leads(old(env.world), turns[0].read) && turns[k - 1].after == env.world
    {
      var q;
      ghost var t;
      q, t := EnqueueNext(env, cases, k, at, ids, allows);
      OneMoreTurn(done, after, outcomes, turns, count, page, q, t);
      outcomes, turns := outcomes + [q], turns + [t];
      if q.Raised? {
        return count, true, outcomes, turns;
      }
      if !q.Nothing? {
        count := count + 1;
      }
    }
    WholePage(done, after, outcomes, turns, count, page);
  }

  /** One page of the cases the query owes a request, each in its turn. */
  method EnqueueAttentionBatch(env: Deployment, after: string, limit: int, at: Instant, ids: nat -> string,
                               allows: AttentionRequest -> bool)
    returns (next: string, count: nat, raised: bool, ghost tick: Tick, ghost cases: seq<AtomicCase>,
             ghost outcomes: seq<Queueing>, ghost turns: seq<Turn>)
    requires env.Valid() && env.Guarded()
    modifies env`nextToken, env`world, env.store
    ensures env.Valid()
    ensures tick.candidates == DueIds(old(env.world).db, at, env.reminderSeconds)
    ensures IsPage(tick.page, tick.candidates, after, BatchLimit(limit))
            && next == NextCursor(tick.page, BatchLimit(limit))
    ensures AsStored(old(env.world).db, tick.page, cases)
    ensures PageOver(EnqueueTurn(env, cases, at, ids, allows), EnqueueAfter(env), outcomes, turns, count,
                     tick.page, raised)
    ensures turns != [] ==> env.leads(old(env.world), turns[0].read)
  {
    var size := BatchLimit(limit);
    var page := env.store.ListAttentionCandidates(after, size, at, env.reminderSeconds);
    tick := Tick.Tick(DueIds(env.world.db, at, env.reminderSeconds), page);
    var rows := Snapshots(env.store, page);
    cases := rows;
    count, raised, outcomes, turns := EnqueuePage(env, page, rows, at, ids, allows);
    next := if |page| == size then page[|page| - 1] else "";
  }

  // ----- reminders

  /** The states a reminder's turn passed through: when outstanding attention, then the
      last delivery were read, and those of the request. */
  datatype Reminding = Reminding(asked: World, looked: World, start: World, mid: World, after: World)

  ghost predicate InReminding(env: Deployment, t: Reminding) {
    env.leads(t.asked, t.looked) && env.leads(t.looked, t.start) && env.leads(t.start, t.mid)
    && env.leads(t.mid, t.after)
  }

  /** How requests are named and whether their level is let through. */
  datatype Naming = Naming(digest: Signature -> string, since: Instant -> string, allows: Intent -> bool)

  function ReminderRequest(seen: AtomicCase, id: string, n: Naming, now: Instant): Intent
    requires seen.lastReportedAt.Some?
  {
    var signature := seen.ReportSignature();
    ReportRequest(id, seen, signature, (n.digest)(signature), (n.since)(seen.lastReportedAt.value), now)
  }

  /** What becomes of a case: a reminder is requested exactly when, seen with the later
      of report and attention delivery, it is due one. */
  predicate Reminded(c: AtomicCase, q: Queueing, t: Reminding, id: string, n: Naming, reassertSeconds: int,
                     enabled: bool)
  {
    var seen := LegacyProjection(c, Previous(t.looked.db, c.caseId), PendingAttention(t.asked.db, c.caseId));
    if seen.None? || !ShouldRemind(seen.value, t.looked.now, reassertSeconds, enabled) then q.Nothing?
    else
      var i := ReminderRequest(seen.value, id, n, t.start.now);
      && Indexed(t.start.db) && !q.Nothing?
      && (q.Raised? <==> i.key !in t.start.db.keys && i.id in t.start.db.outbox)
      && (q.Queued? ==>
            Requests(t.start, t.mid, t.after, i, q.intent,
                     ShouldRemind(seen.value, t.start.now, reassertSeconds, enabled),
                     (n.allows)(FirstRow(t.start.db, i))))
  }

  class Runtime {
    const service: CaseService
    const env: Deployment
    const batchSize: int
    const reactiveReport: bool
    var attentionCursor: string
    var reminderCursor: string
    /** The ticks of the present walk of each cursor. */
    ghost var attentionWalk: seq<Tick>
    ghost var reminderWalk: seq<Tick>

    ghost predicate Valid()
      reads this
    {
      && service.store == env.store
      && Walk(attentionWalk, BatchLimit(batchSize)) && attentionCursor == Cursor(attentionWalk, BatchLimit(batchSize))
      && Walk(reminderWalk, BatchLimit(batchSize)) && reminderCursor == Cursor(reminderWalk, BatchLimit(batchSize))
    }

    constructor (service: CaseService, env: Deployment, batchSize: int, reactiveReport: bool)
      requires service.store == env.store
      ensures Valid() && attentionCursor == "" && reminderCursor == ""
      ensures this.service == service && this.env == env && this.batchSize == batchSize
              && this.reactiveReport == reactiveReport
    {
      this.service, this.env, this.batchSize, this.reactiveReport := service, env, batchSize, reactiveReport;
      attentionCursor, reminderCursor := "", "";
      attentionWalk, reminderWalk := [], [];
    }

    /** One case of a reminder page. */
    method RemindOne(c: AtomicCase, id: string, n: Naming) returns (q: Queueing, ghost t: Reminding)
      requires env.Valid() && env.Guarded() && service.store == env.store
      modifies env`nextToken, env`world, env.store
      ensures env.Valid() && t.asked == old(env.world) && t.after == env.world && InReminding(env, t)
      ensures Reminded(c, q, t, id, n, service.reassertSeconds, service.attentionEnabled)
    {
      ghost var asked := env.world;
      var seen := service.LegacyReminderProjection(env, c);
      ghost var looked := env.world;
      t := Reminding(asked, looked, looked, looked, looked);
      if seen.None? || !service.Remindable(seen.value) {
        return Nothing, t;
      }
      env.Interfere({});
      ghost var start := env.world;
      var row;
      ghost var mid;
      row, mid := RequestReminder(seen.value, id, n);
      t := Reminding(asked, looked, start, mid, env.world);
      q := if row.Some? then Queued(row.value) else Raised;
    }

    method RequestReminder(seen: AtomicCase, id: string, n: Naming) returns (row: Option<Intent>, ghost mid: World)
      requires env.Valid() && env.Guarded() && service.store == env.store && seen.lastReportedAt.Some?
      modifies env`nextToken, env`world, env.store
      ensures env.Valid() && env.leads(old(env.world), mid) && env.leads(mid, env.world) && Indexed(old(env.world).db)
      ensures var w, i := old(env.world), ReminderRequest(seen, id, n, old(env.world).now);
              && (row.None? <==> i.key !in w.db.keys && i.id in w.db.outbox)
              && (row.Some? ==>
                    Requests(w, mid, env.world, i, row.value,
                             ShouldRemind(seen, w.now, service.reassertSeconds, service.attentionEnabled),
                             (n.allows)(FirstRow(w.db, i))))
    {
      var signature := seen.ReportSignature();
      var anchor := (n.since)(seen.lastReportedAt.value);
      row, mid := service.RequestReport(env, seen, signature, id, (n.digest)(signature), anchor, n.allows);
    }

    /** The turn of the case in a place on the page. */
    ghost function RemindTurn(cases: seq<AtomicCase>, ids: nat -> string, n: Naming)
      : (nat, Queueing, Reminding) -> bool
    {
      (k: nat, q, t) =>
        k < |cases| && InReminding(env, t)
        && Reminded(cases[k], q, t, ids(k), n, service.reassertSeconds, service.attentionEnabled)
    }

    ghost function RemindAfter(): (Reminding, Reminding) -> bool {
      (t: Reminding, u: Reminding) => env.leads(t.after, u.asked)
    }

    method RemindNext(cases: seq<AtomicCase>, k: nat, ids: nat -> string, n: Naming)
      returns (q: Queueing, ghost t: Reminding)
      requires env.Valid() && env.Guarded() && service.store == env.store && k < |cases|
      modifies env`nextToken, env`world, env.store
      ensures env.Valid() && env.leads(old(env.world), t.asked) && t.after == env.world
      ensures RemindTurn(cases, ids, n)(k, q, t)
    {
      env.Interfere({});
      q, t := RemindOne(cases[k], ids(k), n);
    }

    method RemindPage(page: seq<string>, cases: seq<AtomicCase>, ids: nat -> string, n: Naming)
      returns (enqueued: nat, raised: bool, ghost outcomes: seq<Queueing>, ghost turns: seq<Reminding>)
      requires env.Valid() && env.Guarded() && service.store == env.store && |cases| == |page|
      modifies env`nextToken, env`world, env.store
      ensures env.Valid()
      ensures PageOver(RemindTurn(cases, ids, n), RemindAfter(), outcomes, turns, enqueued, page, raised)
      ensures turns != [] ==> env.leads(old(env.world), turns[0].asked)
    {
      enqueued, raised, outcomes, turns := 0, false, [], [];
      ghost var done, after := RemindTurn(cases, ids, n), RemindAfter();
      for k := 0 to |page|
        invariant env.Valid() && |outcomes| == |turns| == k && PageSoFar(done, after, outcomes, turns, enqueued)
        invariant Chained(old(env.world), turns, env.world)
      {
        var q;
        ghost var t;
        q, t := RemindNext(cases, k, ids, n);
        OneMoreTurn(done, after, outcomes, turns, enqueued, page, q, t);
        outcomes, turns := outcomes + [q], turns + [t];
        if q.Raised? {
          return enqueued, true, outcomes, turns;
        }
        if q.Queued? {
          enqueued := enqueued + 1;
        }
      }
      WholePage(done, after, outcomes, turns, enqueued, page);
    }

    /** The turns began after a state, and the last of them ended in another. */
    ghost predicate Chained(start: World, turns: seq<Reminding>, end: World) {
      if turns == [] then start == end else env.leads(start, turns[0].asked) && turns[|turns| - 1].after == end
    }

    /** A pass over the cases that are owed a request: one page past the cursor, each case
        in its turn. */
    ghost predicate AttentionPassed(w: World, cursor: string, ids: nat -> string, allows: AttentionRequest -> bool,
                                    tick: Tick, cases: seq<AtomicCase>, outcomes: seq<Queueing>, turns: seq<Turn>,
                                    count: nat, raised: bool)
    {
      && tick.candidates == DueIds(w.db, w.now, env.reminderSeconds)
      && IsPage(tick.page, tick.candidates, cursor, BatchLimit(batchSize)) && AsStored(w.db, tick.page, cases)
      && PageOver(EnqueueTurn(env, cases, w.now, ids, allows), EnqueueAfter(env), outcomes, turns, count,
                  tick.page, raised)
      && (turns != [] ==> env.leads(w, turns[0].read))
    }

    /** A pass over the cases with a report to repeat. */
    ghost predicate ReminderPassed(w: World, cursor: string, ids: nat -> string, n: Naming, tick: Tick,
                                   cases: seq<AtomicCase>, outcomes: seq<Queueing>, turns: seq<Reminding>,
                                   count: nat, raised: bool)
    {
      && tick.candidates == RemindableIds(w.db)
      && IsPage(tick.page, tick.candidates, cursor, BatchLimit(batchSize)) && AsStored(w.db, tick.page, cases)
      && PageOver(RemindTurn(cases, ids, n), RemindAfter(), outcomes, turns, count, tick.page, raised)
      && (turns != [] ==> env.leads(w, turns[0].asked))
    }

    /** One pass of the loop. With attention enabled only the attention walk
        advances; otherwise only the reminder walk, and only if reports are on. A
        pass that raises leaves both cursors where they were. */
    method EnqueueDueCaseReminders(ids: nat -> string, allows: AttentionRequest -> bool, n: Naming)
      returns (count: nat, raised: bool, ghost tick: Tick, ghost cases: seq<AtomicCase>, ghost outcomes: seq<Queueing>,
               ghost turns: seq<Turn>, ghost remindings: seq<Reminding>)
      requires Valid() && env.Valid() && env.Guarded()
      modifies this, env`nextToken, env`world, env.store
      ensures Valid() && env.Valid()
      ensures attentionWalk == if service.attentionEnabled && !raised
              then NextWalk(old(attentionWalk), tick, BatchLimit(batchSize))
                               else old(attentionWalk)
      ensures reminderWalk == if !service.attentionEnabled && reactiveReport && !raised
                              then NextWalk(old(reminderWalk), tick, BatchLimit(batchSize)) else old(reminderWalk)
      ensures service.attentionEnabled ==>
                AttentionPassed(old(env.world), old(attentionCursor), ids, allows, tick, cases, outcomes, turns,
                                count, raised)
      ensures !service.attentionEnabled && reactiveReport ==>
                ReminderPassed(old(env.world), old(reminderCursor), ids, n, tick, cases, outcomes, remindings,
                               count, raised)
      ensures !service.attentionEnabled && !reactiveReport ==> count == 0 && !raised && env.world == old(env.world)
    {
      tick, raised := Tick.Tick({}, []), false;
      cases, outcomes, turns, remindings := [], [], [], [];
      if service.attentionEnabled {
        count, raised, tick, cases, outcomes, turns := AttentionPass(ids, allows);
      } else if !reactiveReport {
        count := 0;
      } else {
        count, raised, tick, cases, outcomes, remindings := ReminderPass(ids, n);
      }
    }

    method AttentionPass(ids: nat -> string, allows: AttentionRequest -> bool)
      returns (count: nat, raised: bool, ghost tick: Tick, ghost cases: seq<AtomicCase>, ghost outcomes: seq<Queueing>,
               ghost turns: seq<Turn>)
      requires Valid() && env.Valid() && env.Guarded()
      modifies this`attentionCursor, this`attentionWalk, env`nextToken, env`world, env.store
      ensures Valid() && env.Valid()
      ensures attentionWalk == if raised then old(attentionWalk)
              else NextWalk(old(attentionWalk), tick, BatchLimit(batchSize))
      ensures AttentionPassed(old(env.world), old(attentionCursor), ids, allows, tick, cases, outcomes, turns,
                              count, raised)
    {
      var next;
      next, count, raised, tick, cases, outcomes, turns :=
        EnqueueAttentionBatch(env, attentionCursor, batchSize, env.store.now, ids, allows);
      if !raised {
        WalkExtends(attentionWalk, tick, BatchLimit(batchSize));
        attentionWalk := NextWalk(attentionWalk, tick, BatchLimit(batchSize));
        attentionCursor := next;
      }
    }

    method ReminderPass(ids: nat -> string, n: Naming)
      returns (count: nat, raised: bool, ghost tick: Tick, ghost cases: seq<AtomicCase>, ghost outcomes: seq<Queueing>,
               ghost turns: seq<Reminding>)
      requires Valid() && env.Valid() && env.Guarded()
      modifies this`reminderCursor, this`reminderWalk, env`nextToken, env`world, env.store
      ensures Valid() && env.Valid()
      ensures reminderWalk == if raised then old(reminderWalk)
              else NextWalk(old(reminderWalk), tick, BatchLimit(batchSize))
      ensures ReminderPassed(old(env.world), old(reminderCursor), ids, n, tick, cases, outcomes, turns, count, raised)
    {
      var size := BatchLimit(batchSize);
      var page := env.store.ListReminderCandidates(reminderCursor, size);
      tick := Tick.Tick(RemindableIds(env.world.db), page);
      var rows := Snapshots(env.store, page);
      cases := rows;
      count, raised, outcomes, turns := RemindPage(page, rows, ids, n);
      if !raised {
        WalkExtends(reminderWalk, tick, size);
        reminderWalk := NextWalk(reminderWalk, tick, size);
        reminderCursor := if |page| == size then page[|page| - 1] else "";
      }
    }
  }
}
