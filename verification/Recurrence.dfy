/** No recurrence or escalation is lost: what a firing observation makes owed stays
    owed until it is delivered, acknowledged or over, and the row of a request that
    is owed was never sent. */
module Recurrence {
  import opened Types
  import opened Attention
  import opened Lifecycle
  import opened Outbox
  import opened Delivery
  import opened Fencing
  import opened CommitLog
  import opened Rate

  predicate Alarming(c: AtomicCase) {
    !c.Acknowledged() && !c.status.Resolved? && !Retired(c.status)
  }

  predicate Announced(previous: Option<AttentionDelivery>, generation: nat) {
    previous.Some? && previous.value.phase.Firing? && previous.value.generation == generation
  }

  function DueFor(w: World, id: string): Verdict
    requires id in w.db.table.cases
  {
    AttentionDue(w.db.table.cases[id], Previous(w.db, id), w.now, w.reminderSeconds)
  }

  /** An unacknowledged, unheld alarm is silent only if a firing delivery of its
      own generation, at its severity or above, is on record. */
  lemma SilenceMeansDelivered(w: World, id: string)
    requires LogMatches(w) && DeliveriesBounded(w) && id in w.db.table.cases
    requires var c := w.db.table.cases[id]; Alarming(c) && !Held(c, w.now)
    ensures DueFor(w, id).NotDue? || (DueFor(w, id).Due? && DueFor(w, id).request.phase.Firing?)
    ensures DueFor(w, id).NotDue? ==>
              var c, log := w.db.table.cases[id], LogOf(w, id);
              && log != []
              && log[|log| - 1].phase.Firing? && log[|log| - 1].generation == c.generation
              && log[|log| - 1].severity.Rank() >= c.severity.Rank()
  {
    LogIsSequence(w, id);
  }

  /** A recorded delivery is never of a generation the case has not reached. */
  lemma DeliveredNotAhead(now: Instant, reminderSeconds: int, events: seq<Event>, id: string)
    requires id in Run(Initial(now, reminderSeconds), events).db.attention
    ensures var db := Run(Initial(now, reminderSeconds), events).db;
            id in db.table.cases && db.attention[id].generation <= db.table.cases[id].generation
  {
    InitialPaced(now, reminderSeconds);
    PacedAlways(Initial(now, reminderSeconds), events);
  }

  // ----- breaches become due

  /** A firing observation that revives a case or exceeds what its acknowledgement
      covers makes a firing request of the raised generation due at once, unless the
      case is retired or held. */
  lemma BreachIsDue(w: World, id: string, o: Observation)
    requires DeliveriesBounded(w) && id in w.db.table.cases && o.status.FiringSeen?
    requires Breaks(w.db.table.cases[id], Covered(w.db.table, id), o.severity)
    ensures var u := Apply(w, CaseWrite(ObserveCase(id, o)));
            && id in u.db.table.cases
            && !u.db.table.cases[id].Acknowledged()
            && u.db.table.cases[id].generation == w.db.table.cases[id].generation + 1
            && (!Retired(u.db.table.cases[id].status) && !Held(u.db.table.cases[id], u.now) ==>
                  && DueFor(u, id).Due?
                  && DueFor(u, id).request.phase.Firing? && DueFor(u, id).request.severity == o.severity
                  && DueFor(u, id).request.generation == w.db.table.cases[id].generation + 1)
  {
  }

  /** A firing observation of a resolved or recovering case is announced at once, and so
      is one beyond an acknowledgement unless the case is closed, expired or linked. */
  lemma RevivedIsDue(w: World, id: string, o: Observation)
    requires DeliveriesBounded(w) && id in w.db.table.cases && o.status == FiringSeen
    requires var c := w.db.table.cases[id];
             && Free(c, w.now)
             && (c.status in {CaseStatus.Resolved, RecoveredPending}
                 || (Breaks(c, Covered(w.db.table, id), o.severity)
                     && c.status !in {Closed, CaseStatus.Expired, Linked}))
    ensures var u := Apply(w, CaseWrite(ObserveCase(id, o)));
            && id in u.db.table.cases && DueFor(u, id).Due?
            && DueFor(u, id).request.phase == Firing && DueFor(u, id).request.severity == o.severity
            && DueFor(u, id).request.generation == w.db.table.cases[id].generation + 1
            && DueFor(u, id).request.kind in {New, Recurrence, Escalation}
  {
    FiringIsRecorded(w.db.table, id, o, w.now);
    BreachIsDue(w, id, o);
  }

  /** A clean observation of a healthy source closes an alarm: when the last delivery of
      a free case was firing, its recovery is due at once, at that delivery's severity. */
  lemma CleanIsDue(w: World, id: string, o: Observation)
    requires DeliveriesBounded(w) && id in w.db.table.cases && Free(w.db.table.cases[id], w.now)
    requires o.status in {CleanSeen, ResolvedSeen} && o.health !in {Degraded, HealthFailed}
    requires id in w.db.attention && w.db.attention[id].phase == Firing
    ensures var u, p := Apply(w, CaseWrite(ObserveCase(id, o))), w.db.attention[id];
            && id in u.db.table.cases && DueFor(u, id).Due?
            && DueFor(u, id).request.kind == Recovery && DueFor(u, id).request.phase == Recovered
            && DueFor(u, id).request.severity == p.severity && DueFor(u, id).request.expectedSequence == p.sequence
  {
    CleanIsRecorded(w.db.table, id, o, w.now);
  }

  // ----- and stay due

  /** The current generation of an alarm has not been announced. */
  predicate Owed(w: World, id: string) {
    && id in w.db.table.cases && Alarming(w.db.table.cases[id])
    && !Announced(Previous(w.db, id), w.db.table.cases[id].generation)
  }

  lemma OwedIsDue(w: World, id: string)
    requires DeliveriesBounded(w) && Owed(w, id) && !Held(w.db.table.cases[id], w.now)
    ensures DueFor(w, id).Due? && DueFor(w, id).request.phase.Firing?
    ensures DueFor(w, id).request.generation == w.db.table.cases[id].generation
  {
  }

  /** The case writes that acknowledge a case or end its alarm. */
  predicate Quiets(op: Op, id: string) {
    || (op.AckCase? && op.id == id)
    || (op.Move? && op.id == id && (op.status.Resolved? || Retired(op.status)))
    || (op.ObserveCase? && op.id == id && op.o.PositiveClean())
  }

  /** The events that settle a debt: the delivery of that generation, an
      acknowledgement, or the end of the alarm. */
  predicate Settles(w: World, e: Event, id: string) {
    && id in w.db.table.cases
    && (|| (e.CaseWrite? && Quiets(e.write, id))
        || (Delivers(w, e) && DeliveryOf(w, e).caseId == id && DeliveryOf(w, e).phase.Firing?
            && DeliveryOf(w, e).generation == w.db.table.cases[id].generation))
  }

  lemma AlarmKeptByOp(t: Table, op: Op, now: Instant, id: string)
    requires id in t.cases && Alarming(t.cases[id]) && !Quiets(op, id)
    ensures id in ApplyOp(t, op, now).cases && Alarming(ApplyOp(t, op, now).cases[id])
    ensures ApplyOp(t, op, now).cases[id].generation == t.cases[id].generation
  {
  }

  lemma AlarmKept(w: World, e: Event, id: string)
    requires id in w.db.table.cases && Alarming(w.db.table.cases[id]) && !(e.CaseWrite? && Quiets(e.write, id))
    ensures id in Apply(w, e).db.table.cases && Alarming(Apply(w, e).db.table.cases[id])
    ensures Apply(w, e).db.table.cases[id].generation == w.db.table.cases[id].generation
  {
    TableEffect(w, e);
    if e.CaseWrite? {
      AlarmKeptByOp(w.db.table, e.write, w.now, id);
    }
  }

  lemma OwedStep(w: World, e: Event, id: string)
    requires Owed(w, id) && !Settles(w, e, id)
    ensures Owed(Apply(w, e), id)
  {
    AlarmKept(w, e, id);
    LogEffect(w, e);
  }

  lemma LogsStayBounded(w: World, events: seq<Event>)
    requires Paced(w)
    ensures LogMatches(Run(w, events)) && DeliveriesBounded(Run(w, events))
  {
    PacedAlways(w, events);
  }

  /** Whatever else happens, an unannounced generation stays due, holds apart, until
      an event settles it. */
  lemma {:induction false} OwedUntilSettled(w: World, events: seq<Event>, id: string)
    requires Paced(w) && Owed(w, id)
    requires forall k :: 0 <= k < |events| ==> !Settles(Run(w, events[..k]), events[k], id)
    ensures var u := Run(w, events);
            && Owed(u, id)
            && (!Held(u.db.table.cases[id], u.now) ==> DueFor(u, id).Due? && DueFor(u, id).request.phase.Firing?)
  {
    if events != [] {
      var before, e := events[..|events| - 1], events[|events| - 1];
      forall k | 0 <= k < |before| ensures !Settles(Run(w, before[..k]), before[k], id) {
        assert before[..k] == events[..k];
      }
      OwedUntilSettled(w, before, id);
      OwedStep(Run(w, before), e, id);
    }
    LogsStayBounded(w, events);
    if !Held(Run(w, events).db.table.cases[id], Run(w, events).now) {
      OwedIsDue(Run(w, events), id);
    }
  }

  // ----- nothing is lost

  lemma {:induction false} CasesGrow(w: World, events: seq<Event>, id: string)
    requires id in w.db.table.cases
    ensures id in Run(w, events).db.table.cases
    ensures w.db.table.cases[id].generation <= Run(w, events).db.table.cases[id].generation
    ensures LogOf(w, id) <= LogOf(Run(w, events), id)
  {
    if events != [] {
      var before, e := events[..|events| - 1], events[|events| - 1];
      CasesGrow(w, before, id);
      CasesKept(Run(w, before), e, id);
      LogEffect(Run(w, before), e);
    }
  }

  /** A firing delivery of the current generation, at the case's severity or above,
      was committed after the first `n`. */
  predicate AnnouncedSince(w: World, id: string, n: nat)
    requires id in w.db.table.cases
  {
    var c, log := w.db.table.cases[id], LogOf(w, id);
    && n < |log| && log[|log| - 1].phase.Firing? && log[|log| - 1].generation == c.generation
    && log[|log| - 1].severity.Rank() >= c.severity.Rank()
  }

  /** No delivery on record reaches the generation a breach raises. */
  lemma BreachUnannounced(w: World, id: string, o: Observation, u: World)
    requires LogMatches(w) && DeliveriesBounded(w) && id in w.db.table.cases && o.status.FiringSeen?
    requires Breaks(w.db.table.cases[id], Covered(w.db.table, id), o.severity)
    requires u == Apply(w, CaseWrite(ObserveCase(id, o)))
    ensures id in u.db.table.cases && LogOf(u, id) == LogOf(w, id)
    ensures LogOf(u, id) != [] ==> LogOf(u, id)[|LogOf(u, id)| - 1].generation < u.db.table.cases[id].generation
  {
    BreachIsDue(w, id, o);
    if LogOf(w, id) != [] {
      LastBounded(w, id);
    }
  }

  lemma DueOrAnnounced(x: World, id: string, before: seq<AttentionDelivery>, generation: nat)
    requires LogMatches(x) && DeliveriesBounded(x) && id in x.db.table.cases
    requires Alarming(x.db.table.cases[id]) && !Held(x.db.table.cases[id], x.now)
    requires before <= LogOf(x, id) && generation <= x.db.table.cases[id].generation
    requires before != [] ==> before[|before| - 1].generation < generation
    ensures (DueFor(x, id).Due? && DueFor(x, id).request.phase.Firing?) || AnnouncedSince(x, id, |before|)
  {
    SilenceMeansDelivered(x, id);
  }

  lemma UnannouncedLater(u: World, id: string, events: seq<Event>, x: World)
    requires Paced(u) && id in u.db.table.cases && x == Run(u, events)
    requires LogOf(u, id) != [] ==> LogOf(u, id)[|LogOf(u, id)| - 1].generation < u.db.table.cases[id].generation
    ensures id in x.db.table.cases
    ensures Alarming(x.db.table.cases[id]) && !Held(x.db.table.cases[id], x.now) ==>
              (DueFor(x, id).Due? && DueFor(x, id).request.phase.Firing?) || AnnouncedSince(x, id, |LogOf(u, id)|)
  {
    LogsStayBounded(u, events);
    CasesGrow(u, events, id);
    if Alarming(x.db.table.cases[id]) && !Held(x.db.table.cases[id], x.now) {
      DueOrAnnounced(x, id, LogOf(u, id), u.db.table.cases[id].generation);
    }
  }

  lemma LastBounded(w: World, id: string)
    requires LogMatches(w) && DeliveriesBounded(w) && id in w.db.table.cases && LogOf(w, id) != []
    ensures LogOf(w, id)[|LogOf(w, id)| - 1].generation <= w.db.table.cases[id].generation
  {
    LogIsSequence(w, id);
  }

  /** After a breach, through any further run: if the case is alarming, not
      acknowledged and not held, then a firing request is due, or a firing delivery
      of its current generation was committed since the breach. */
  lemma NoLostRecurrence(w: World, id: string, o: Observation, u: World, events: seq<Event>, x: World)
    requires Paced(w) && id in w.db.table.cases && o.status.FiringSeen?
    requires Breaks(w.db.table.cases[id], Covered(w.db.table, id), o.severity)
    requires u == Apply(w, CaseWrite(ObserveCase(id, o))) && x == Run(u, events)
    ensures id in x.db.table.cases
    ensures Alarming(x.db.table.cases[id]) && !Held(x.db.table.cases[id], x.now) ==>
              (DueFor(x, id).Due? && DueFor(x, id).request.phase.Firing?) || AnnouncedSince(x, id, |LogOf(w, id)|)
  {
    BreachUnannounced(w, id, o, u);
    PacedStep(w, CaseWrite(ObserveCase(id, o)));
    UnannouncedLater(u, id, events, x);
  }

  // ----- the row of a request that is owed

  /** A delivered attention row answers a turn that is past. */
  predicate DeliveredPast(w: World) {
    forall id :: id in w.db.outbox && w.db.outbox[id].payload.delivered.Some? ==>
      w.db.outbox[id].Attends()
      && w.db.outbox[id].payload.request.value.expectedSequence < Sequence(w.db, w.db.outbox[id].caseId)
  }

  lemma DeliveredRowCommitted(w: World, e: Event)
    requires Rows(w) && WindowsTied(w) && Written(w, e).Some? && Written(w, e).value.payload.delivered.Some?
    ensures Delivers(w, e) && RowOf(w, e) == Written(w, e).value && RowOf(w, e).Attends()
    ensures RowOf(w, e).payload.request.value.expectedSequence < Sequence(Apply(w, e).db, RowOf(w, e).caseId)
  {
    WrittenAdmissible(w, e);
    match e
    case OutboxWrite(op) => OutboxNeverDelivers(w, op);
    case LeaseWrite(Commit(_, _)) =>
      assert RowOf(w, e).Attends();
      var r := CommitsItsRequest(w, e);
      LogEffect(w, e);
    case _ =>
  }

  lemma OutboxNeverDelivers(w: World, op: OutboxOp)
    requires VersionsSane(w) && JobsClaimed(w) && OutboxRow(w, op).Some?
    ensures OutboxRow(w, op).value.payload.delivered.None?
  {
    match op
    case EnqueueIntent(_) =>
    case Fail(t, _) => assert Sane(w.jobs[t].row);
    case Finish(t, _) => assert Sane(w.jobs[t].row);
    case _ => assert Sane(op.snapshot);
  }

  lemma PastStays(w: World, e: Event, row: Intent)
    requires row.Attends() && row.payload.request.value.expectedSequence < Sequence(w.db, row.caseId)
    ensures row.payload.request.value.expectedSequence < Sequence(Apply(w, e).db, row.caseId)
  {
    SequenceGrows(w, e, row.caseId);
  }

  lemma OutboxAfter(w: World, e: Event)
    ensures Apply(w, e).db.outbox == Outboxed(w, Written(w, e))
  {
    Effect(w, e);
  }

  lemma RowPast(w: World, e: Event, id: string)
    requires Rows(w) && WindowsTied(w) && DeliveredPast(w)
    requires id in Apply(w, e).db.outbox && Apply(w, e).db.outbox[id].payload.delivered.Some?
    ensures var row := Apply(w, e).db.outbox[id];
            row.Attends() && row.payload.request.value.expectedSequence < Sequence(Apply(w, e).db, row.caseId)
  {
    OutboxAfter(w, e);
    if Written(w, e).Some? && Written(w, e).value.id == id {
      DeliveredRowCommitted(w, e);
    } else {
      PastStays(w, e, w.db.outbox[id]);
    }
  }

  lemma DeliveredPastStep(w: World, e: Event)
    requires Rows(w) && WindowsTied(w) && DeliveredPast(w)
    ensures DeliveredPast(Apply(w, e))
  {
    var u := Apply(w, e);
    forall id | id in u.db.outbox && u.db.outbox[id].payload.delivered.Some?
      ensures u.db.outbox[id].Attends()
      ensures u.db.outbox[id].payload.request.value.expectedSequence < Sequence(u.db, u.db.outbox[id].caseId)
    {
      RowPast(w, e, id);
    }
  }

  lemma {:induction false} DeliveredPastAlways(now: Instant, reminderSeconds: int, events: seq<Event>)
    ensures var w := Run(Initial(now, reminderSeconds), events); Paced(w) && DeliveredPast(w) && Indexed(w.db)
  {
    InitialPaced(now, reminderSeconds);
    PacedAlways(Initial(now, reminderSeconds), events);
    if events != [] {
      var before, e := events[..|events| - 1], events[|events| - 1];
      DeliveredPastAlways(now, reminderSeconds, before);
      DeliveredPastStep(Run(Initial(now, reminderSeconds), before), e);
      IndexedStep(Run(Initial(now, reminderSeconds), before), e);
    }
  }

  /** While the turn of a request has not passed, the row that already has its key,
      if any, carries that request and was not sent: it is live, or completed as
      suppressed. */
  lemma TurnNeverBlocked(w: World, id: string, r: AttentionRequest)
    requires Paced(w) && DeliveredPast(w) && Indexed(w.db)
    requires r.key == RequestKeyOf(id, r) && Sequence(w.db, id) <= r.expectedSequence
    ensures r.key in w.db.keys ==>
              var row := w.db.outbox[w.db.keys[r.key]];
              && row.caseId == id && row.payload.request.Some? && RequestKeyOf(id, row.payload.request.value) == r.key
              && row.payload.delivered.None?
              && (row.status.Succeeded? ==>
                    row.payload.suppressed.NoLongerDue? || row.payload.suppressed.AttentionVerbosity?)
  {
    if r.key in w.db.keys {
      var row := w.db.outbox[w.db.keys[r.key]];
      assert row in w.seen && Sane(row);
      AttentionKeyed(id, r);
      var s := row.payload.request.value;
      RequestKeyInjective(id, r.generation, r.phase, r.severity, r.expectedSequence, r.kind,
                          row.caseId, s.generation, s.phase, s.severity, s.expectedSequence, s.kind);
    }
  }

  /** In particular while the request is due. */
  lemma DueNeverBlocked(w: World, id: string)
    requires Paced(w) && DeliveredPast(w) && Indexed(w.db) && id in w.db.table.cases && DueFor(w, id).Due?
    ensures var key := DueFor(w, id).request.key;
            key in w.db.keys ==>
              var row := w.db.outbox[w.db.keys[key]];
              && row.caseId == id && row.payload.request.Some? && RequestKeyOf(id, row.payload.request.value) == key
              && row.payload.delivered.None?
              && (row.status.Succeeded? ==>
                    row.payload.suppressed.NoLongerDue? || row.payload.suppressed.AttentionVerbosity?)
  {
    TurnNeverBlocked(w, id, DueFor(w, id).request);
  }

  lemma AttentionKeyed(id: string, r: AttentionRequest)
    ensures "attention:" <= RequestKeyOf(id, r)
  {
  }
}
