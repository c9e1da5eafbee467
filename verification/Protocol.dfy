/** The worker code and the protocol: whatever a deployment's workers do, its store
    stays a reachable state of the delivery protocol, so every run theorem holds of it. */
module Protocols {
  import opened Types
  import opened Outbox
  import opened Delivery
  import opened Fencing
  import opened TokenRuns
  import opened Timing
  import opened CommitLog
  import opened Rate
  import opened Recurrence
  import opened Attention
  import opened CaseStores
  import opened Deployments
  import opened Scheduler

  ghost predicate Reachable(now: Instant, reminderSeconds: int, w: World) {
    exists events :: w == Run(Initial(now, reminderSeconds), events)
  }

  lemma ReachableInitially(now: Instant, reminderSeconds: int)
    ensures Reachable(now, reminderSeconds, Initial(now, reminderSeconds))
  {
    assert Run(Initial(now, reminderSeconds), []) == Initial(now, reminderSeconds);
  }

  lemma ReachableStep(now: Instant, reminderSeconds: int, w: World, e: Event)
    requires Reachable(now, reminderSeconds, w)
    ensures Reachable(now, reminderSeconds, Apply(w, e))
  {
    var events :| w == Run(Initial(now, reminderSeconds), events);
    RunStep(Initial(now, reminderSeconds), events, e);
  }

  /** Some run leads from one state to another. */
  ghost predicate Leads(w: World, u: World) {
    exists events :: u == Run(w, events)
  }

  lemma LeadsIsRun()
    ensures forall w :: Leads(w, w)
    ensures forall w, u, e :: Leads(w, u) ==> Leads(w, Apply(u, e))
    ensures forall w, u, x :: Leads(w, u) && Leads(u, x) ==> Leads(w, x)
  {
    forall w ensures Leads(w, w) {
      assert Run(w, []) == w;
    }
    forall w, u, e | Leads(w, u) ensures Leads(w, Apply(u, e)) {
      var events :| u == Run(w, events);
      RunStep(w, events, e);
    }
    forall w, u, x | Leads(w, u) && Leads(u, x) ensures Leads(w, x) {
      var a :| u == Run(w, a);
      var b :| x == Run(u, b);
      RunsJoin(w, a, b);
    }
  }

  /** What holds of every reachable state. */
  lemma ReachableInvariants(now: Instant, reminderSeconds: int, w: World)
    requires Reachable(now, reminderSeconds, w)
    ensures Timed(w) && Paced(w) && DeliveredPast(w) && Rows(w) && Indexed(w.db)
  {
    var events :| w == Run(Initial(now, reminderSeconds), events);
    TimedAlways(now, reminderSeconds, events);
    DeliveredPastAlways(now, reminderSeconds, events);
  }

  lemma ClaimedBefore(now: Instant, reminderSeconds: int, w: World, u: World, id: string, t: Token)
    requires Reachable(now, reminderSeconds, w) && Leads(w, u) && t in w.used && Claimed(u, id, t)
    ensures Claimed(w, id, t)
  {
    ReachableInvariants(now, reminderSeconds, w);
    var events :| u == Run(w, events);
    if !Claimed(w, id, t) {
      ReleasedForever(w, events, id, t);
    }
  }

  /** A fresh deployment. Its workers keep every property that events keep; this one
      is instantiated with reachability itself. */
  method Deploy(store: CaseStore, reminderSeconds: int) returns (env: Deployment)
    requires store.Contents() == Initial(store.now, reminderSeconds).db
    ensures env.Valid() && env.store == store && env.reminderSeconds == reminderSeconds
    ensures forall w :: env.keeps(w) ==> Reachable(store.now, reminderSeconds, w)
    ensures env.Guarded() && forall w, u :: env.leads(w, u) <==> Leads(w, u)
  {
    ghost var start := store.now;
    forall w, e | Reachable(start, reminderSeconds, w) ensures Reachable(start, reminderSeconds, Apply(w, e)) {
      ReachableStep(start, reminderSeconds, w, e);
    }
    ReachableInitially(start, reminderSeconds);
    LeadsIsRun();
    env := new Deployment(store, reminderSeconds, w => Reachable(start, reminderSeconds, w), (w, u) => Leads(w, u));
    forall w | env.keeps(w) ensures Rows(w) && Indexed(w.db) {
      ReachableInvariants(start, reminderSeconds, w);
    }
    forall w, u, id, t | env.keeps(w) && env.leads(w, u) && t in w.used && Claimed(u, id, t) ensures Claimed(w, id, t) {
      ClaimedBefore(start, reminderSeconds, w, u, id, t);
    }
  }

  /** The store a deployment's workers leave behind meets every invariant. */
  lemma DeployedInvariants(env: Deployment, now: Instant)
    requires env.Valid() && forall w :: env.keeps(w) ==> Reachable(now, env.reminderSeconds, w)
    ensures env.store.Contents() == env.world.db
    ensures Timed(env.world) && Paced(env.world) && DeliveredPast(env.world) && Indexed(env.store.Contents())
  {
    ReachableInvariants(now, env.reminderSeconds, env.world);
  }

  lemma ReachableLater(now: Instant, reminderSeconds: int, w: World, u: World)
    requires Reachable(now, reminderSeconds, w) && Leads(w, u)
    ensures Reachable(now, reminderSeconds, u)
  {
    var a :| w == Run(Initial(now, reminderSeconds), a);
    var b :| u == Run(w, b);
    RunsJoin(Initial(now, reminderSeconds), a, b);
  }

  lemma SequenceLater(w: World, u: World, c: string)
    requires Leads(w, u)
    ensures Sequence(w.db, c) <= Sequence(u.db, c)
  {
    var events :| u == Run(w, events);
    SequenceCountsCommits(w, events, c);
  }

  /** Among the workers of a deployment, a case that is queued ends in a row that carries
      the request it was owed, and that row was not sent unless a delivery for the case
      was committed after the last one was read. */
  lemma OwedIsQueued(env: Deployment, now: Instant, c: AtomicCase, q: Queueing, t: Turn, at: Instant, id: string,
                     allows: AttentionRequest -> bool)
    requires forall w, u :: env.leads(w, u) <==> Leads(w, u)
    requires Reachable(now, env.reminderSeconds, t.read) && InTurn(env, t)
    requires Enqueued(c, q, t, at, id, allows, env.reminderSeconds) && q.Queued?
    ensures var verdict := AttentionDue(c, Previous(t.read.db, c.caseId), at, env.reminderSeconds);
            && verdict.Due? && q.intent.key == verdict.request.key
            && (Sequence(t.after.db, c.caseId) == Sequence(t.read.db, c.caseId) ==>
                  Carries(q.intent, c.caseId, verdict.request) && q.intent.payload.delivered.None?)
  {
    var r := QueuedAsOwed(c, q, t, at, id, allows, env.reminderSeconds);
    QueuesKey(t.start, t.mid, t.after, AttentionIntent(id, c.caseId, r, t.start.now), q.intent, allows(r));
    TurnReachable(env, now, t, c.caseId);
    if Sequence(t.after.db, c.caseId) == Sequence(t.read.db, c.caseId) {
      QueuedUnlessOvertaken(t.start, t.mid, t.after, q.intent, c.caseId, r, id, t.start.now, allows(r));
    }
  }

  lemma TurnReachable(env: Deployment, now: Instant, t: Turn, c: string)
    requires forall w, u :: env.leads(w, u) <==> Leads(w, u)
    requires Reachable(now, env.reminderSeconds, t.read) && InTurn(env, t)
    ensures Paced(t.mid) && DeliveredPast(t.mid) && Paced(t.after) && DeliveredPast(t.after)
    ensures Sequence(t.read.db, c) <= Sequence(t.mid.db, c) <= Sequence(t.after.db, c)
  {
    ReachableLater(now, env.reminderSeconds, t.read, t.start);
    ReachableLater(now, env.reminderSeconds, t.start, t.mid);
    ReachableLater(now, env.reminderSeconds, t.mid, t.after);
    ReachableInvariants(now, env.reminderSeconds, t.mid);
    ReachableInvariants(now, env.reminderSeconds, t.after);
    SequenceLater(t.read, t.start, c);
    SequenceLater(t.start, t.mid, c);
    SequenceLater(t.mid, t.after, c);
  }
}
