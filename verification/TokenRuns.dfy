/** Whole runs of the claim protocol: the life of a claim token, workers that lost
    their claim, and rows whose delivery was committed. */
module TokenRuns {
  import opened Types
  import opened Outbox
  import opened Delivery
  import opened Fencing

  ghost predicate Holds(w: World, t: Token) {
    exists id :: Claimed(w, id, t)
  }

  lemma InitialRows(now: Instant, reminderSeconds: int)
    ensures Rows(Initial(now, reminderSeconds)) && Indexed(Initial(now, reminderSeconds).db)
  {
  }

  // ----- the life of a token

  lemma HeldIsUsed(w: World, t: Token)
    requires Rows(w) && Holds(w, t)
    ensures t in w.used
  {
    var id :| Claimed(w, id, t);
    assert w.db.outbox[id] in w.seen;
  }

  lemma TakenFresh(w: World, u: World, row: Option<Intent>, t: Token)
    requires Change(w, u, row) && (row.Some? ==> Admissible(w, row.value))
    requires Holds(u, t)
    ensures Holds(w, t) || t !in w.used
  {
    var id :| Claimed(u, id, t);
    if !(row.Some? && row.value.id == id) {
      assert Claimed(w, id, t);
    }
  }

  /** A row takes up a token only if the token was never drawn before. */
  lemma HoldsStep(w: World, e: Event, t: Token)
    requires Rows(w)
    ensures Holds(w, t) ==> t in w.used
    ensures Holds(Apply(w, e), t) ==> Holds(w, t) || t !in w.used
  {
    RowsStep(w, e);
    if Holds(Apply(w, e), t) {
      TakenFresh(w, Apply(w, e), Written(w, e), t);
    }
    if Holds(w, t) {
      HeldIsUsed(w, t);
    }
  }

  /** How many steps of a run put a row in progress under a token. */
  ghost function Entries(w: World, events: seq<Event>, t: Token): nat {
    if events == [] then 0
    else
      var before, e := events[..|events| - 1], events[|events| - 1];
      Entries(w, before, t) + if !Holds(Run(w, before), t) && Holds(Apply(Run(w, before), e), t) then 1 else 0
  }

  /** How many steps of a run take a row out of that progress. */
  ghost function Exits(w: World, events: seq<Event>, t: Token): nat {
    if events == [] then 0
    else
      var before, e := events[..|events| - 1], events[|events| - 1];
      Exits(w, before, t) + if Holds(Run(w, before), t) && !Holds(Apply(Run(w, before), e), t) then 1 else 0
  }

  /** Over any interleaving, a token enters at most once and leaves at most once,
      and a row holds it exactly between the two. */
  lemma {:induction false} TokenLife(w: World, events: seq<Event>, t: Token)
    requires Rows(w) && t !in w.used
    ensures Entries(w, events, t) <= 1 && Exits(w, events, t) <= Entries(w, events, t)
    ensures Holds(Run(w, events), t) <==> Entries(w, events, t) == 1 && Exits(w, events, t) == 0
    ensures Entries(w, events, t) == 1 ==> t in Run(w, events).used
  {
    if events == [] {
      HoldsStep(w, Tick(0), t);
    } else {
      var before, e := events[..|events| - 1], events[|events| - 1];
      TokenLife(w, before, t);
      RowsAlways(w, before);
      HoldsStep(Run(w, before), e, t);
      RowsStep(Run(w, before), e);
      HoldsStep(Run(w, events), e, t);
    }
  }

  // ----- workers that lost their claim

  /** The writes only the worker that drew `t` makes. */
  predicate ActsFor(w: World, e: Event, t: Token) {
    match e
    case OutboxWrite(Fail(claim, _)) => claim == t
    case OutboxWrite(Finish(claim, _)) => claim == t
    case LeaseWrite(Acquire(claim, _, _)) => claim == t
    case LeaseWrite(Commit(lease, _)) => lease in w.windows && w.windows[lease].claim == t
    case _ => false
  }

  lemma LostIsInert(w: World, e: Event, t: Token)
    requires JobsClaimed(w) && t in w.jobs && !Holds(w, t) && ActsFor(w, e, t)
    ensures Apply(w, e) == w
  {
    var row := w.jobs[t].row;
    assert !Claimed(w, row.id, t);
    match e
    case OutboxWrite(Fail(_, _)) =>
    case OutboxWrite(Finish(_, _)) =>
    case LeaseWrite(Acquire(_, _, _)) =>
    case LeaseWrite(Commit(lease, at)) => assert Commits(w, lease, at) ==> Claimed(w, row.id, t);
  }

  lemma {:induction false} LostStaysLost(w: World, events: seq<Event>, t: Token)
    requires Rows(w) && t in w.jobs && !Holds(w, t)
    ensures Rows(Run(w, events)) && t in Run(w, events).jobs && !Holds(Run(w, events), t)
  {
    if events != [] {
      var before, e := events[..|events| - 1], events[|events| - 1];
      LostStaysLost(w, before, t);
      HoldsStep(Run(w, before), e, t);
      RowsStep(Run(w, before), e);
    }
  }

  /** A worker whose claim was recovered, or ended in any way, never changes
      anything again, whatever happens in between. */
  lemma FencedForever(w: World, events: seq<Event>, t: Token, e: Event)
    requires Rows(w) && t in w.jobs && !Holds(w, t)
    requires ActsFor(Run(w, events), e, t)
    ensures Apply(Run(w, events), e) == Run(w, events)
  {
    LostStaysLost(w, events, t);
    LostIsInert(Run(w, events), e, t);
  }

  lemma ReleasedStep(w: World, u: World, row: Option<Intent>, id: string, t: Token)
    requires Change(w, u, row) && (row.Some? ==> Admissible(w, row.value))
    requires t in w.used && !Claimed(w, id, t)
    ensures t in u.used && !Claimed(u, id, t)
  {
  }

  /** A claim that does not hold its row never holds it again. */
  lemma {:induction false} ReleasedForever(w: World, events: seq<Event>, id: string, t: Token)
    requires Rows(w) && t in w.used && !Claimed(w, id, t)
    ensures Rows(Run(w, events)) && t in Run(w, events).used && !Claimed(Run(w, events), id, t)
  {
    if events != [] {
      var before, e := events[..|events| - 1], events[|events| - 1];
      ReleasedForever(w, before, id, t);
      RowsStep(Run(w, before), e);
      ReleasedStep(Run(w, before), Run(w, events), Written(Run(w, before), e), id, t);
    }
  }

  // ----- delivered rows

  predicate DeliveredRow(db: Db, id: string) {
    id in db.outbox && db.outbox[id].payload.delivered.Some?
  }

  /** Only the two reopenings write a row that succeeded. */
  lemma SuccessRewritten(w: World, op: OutboxOp)
    requires OutboxRow(w, op).Some?
    requires var id := OutboxRow(w, op).value.id; id in w.db.outbox && w.db.outbox[id].status.Succeeded?
    ensures op.ReopenAttention? || op.ReopenReport?
    ensures op.snapshot in w.seen && op.snapshot.id == OutboxRow(w, op).value.id
  {
    match op
    case Fail(_, _) =>
    case Finish(_, _) =>
    case _ =>
  }

  lemma UnwrittenRowKept(w: World, e: Event, id: string)
    requires id in w.db.outbox && (Written(w, e).None? || Written(w, e).value.id != id)
    ensures id in Apply(w, e).db.outbox && Apply(w, e).db.outbox[id] == w.db.outbox[id]
  {
    Effect(w, e);
  }

  lemma NoSnapshotOfDelivered(w: World, v: Intent, id: string)
    requires VersionsAgree(w) && VersionsSane(w) && SuccessUnique(w)
    requires DeliveredRow(w.db, id) && v in w.seen && v.id == id
    ensures OutboxRow(w, ReopenAttention(v)).None? && OutboxRow(w, ReopenReport(v)).None?
  {
    assert w.db.outbox[id] in w.seen && Sane(w.db.outbox[id]);
    assert Sane(v) && SameIntent(v, w.db.outbox[id]);
  }

  lemma DeliveredRowFixed(w: World, e: Event, id: string)
    requires Rows(w) && DeliveredRow(w.db, id)
    ensures w.db.outbox[id].status.Succeeded?
    ensures id in Apply(w, e).db.outbox && Apply(w, e).db.outbox[id] == w.db.outbox[id]
  {
    assert w.db.outbox[id] in w.seen && Sane(w.db.outbox[id]);
    if Written(w, e).Some? && Written(w, e).value.id == id {
      match e
      case OutboxWrite(op) =>
        SuccessRewritten(w, op);
        NoSnapshotOfDelivered(w, op.snapshot, id);
        assert false;
      case LeaseWrite(Commit(u, at)) =>
        assert false;
      case _ =>
    } else {
      UnwrittenRowKept(w, e, id);
    }
  }

  /** A row committed as delivered never leaves `succeeded`, nor changes at all. */
  lemma {:induction false} DeliveredRowFinal(w: World, events: seq<Event>, id: string)
    requires Rows(w) && DeliveredRow(w.db, id)
    ensures id in Run(w, events).db.outbox && Run(w, events).db.outbox[id] == w.db.outbox[id]
    ensures w.db.outbox[id].status.Succeeded?
  {
    if events == [] {
      DeliveredRowFixed(w, Tick(0), id);
    } else {
      var before, e := events[..|events| - 1], events[|events| - 1];
      DeliveredRowFinal(w, before, id);
      RowsAlways(w, before);
      DeliveredRowFixed(Run(w, before), e, id);
    }
  }

  /** The three together, for every run from an empty store and every continuation. */
  lemma FencingFromTheStart(now: Instant, reminderSeconds: int, before: seq<Event>, after: seq<Event>, t: Token)
    ensures var start := Initial(now, reminderSeconds);
            Entries(start, before, t) <= 1 && Exits(start, before, t) <= Entries(start, before, t)
    ensures var w := Run(Initial(now, reminderSeconds), before);
            t in w.jobs && !Holds(w, t) ==>
              forall e :: ActsFor(Run(w, after), e, t) ==> Apply(Run(w, after), e) == Run(w, after)
    ensures var w := Run(Initial(now, reminderSeconds), before);
            forall id :: DeliveredRow(w.db, id) ==>
              id in Run(w, after).db.outbox && Run(w, after).db.outbox[id] == w.db.outbox[id]
  {
    var start := Initial(now, reminderSeconds);
    InitialRows(now, reminderSeconds);
    TokenLife(start, before, t);
    RowsAlways(start, before);
    var w := Run(start, before);
    if t in w.jobs && !Holds(w, t) {
      forall e | ActsFor(Run(w, after), e, t) ensures Apply(Run(w, after), e) == Run(w, after) {
        FencedForever(w, after, t, e);
      }
    }
    forall id | DeliveredRow(w.db, id)
      ensures id in Run(w, after).db.outbox && Run(w, after).db.outbox[id] == w.db.outbox[id]
    {
      DeliveredRowFinal(w, after, id);
    }
  }

  // ----- reopening

  /** Attention rows are reopened only from a suppressed, undelivered state, and
      only while the snapshot is the stored row. */
  lemma ReopenTouchesOnlySuppressed(w: World, v: Intent)
    requires VersionsAgree(w) && VersionsSane(w) && SuccessUnique(w) && OutboxRow(w, ReopenAttention(v)).Some?
    ensures w.db.outbox[v.id] == v && v.payload.delivered.None? && !v.payload.suppressed.Sent?
    ensures Apply(w, OutboxWrite(ReopenAttention(v))).db.outbox[v.id]
            == v.(status := Pending, nextAttemptAt := Some(w.now), payload := v.payload.(suppressed := Sent))
  {
    assert Sane(v);
  }

  /** Whether an event takes back a notification that was sent. */
  predicate TakesBack(w: World, e: Event, id: string) {
    && id in w.db.outbox && w.db.outbox[id].status.Succeeded? && w.db.outbox[id].payload.suppressed.Sent?
    && id in Apply(w, e).db.outbox && !Apply(w, e).db.outbox[id].status.Succeeded?
  }

  /** The reopening of a report compares no token, but a snapshot with the stored
      token is the stored row. */
  lemma CurrentSnapshotIsSafe(w: World, v: Intent)
    requires VersionsAgree(w) && SuccessUnique(w) && OutboxRow(w, ReopenReport(v)).Some?
    ensures w.db.outbox[v.id].token == v.token ==>
              w.db.outbox[v.id] == v && !TakesBack(w, OutboxWrite(ReopenReport(v)), v.id)
  {
  }

  /** Nothing else takes a sent row back. */
  lemma OnlyReportReopenTakesBack(w: World, e: Event, id: string)
    requires Rows(w) && TakesBack(w, e, id)
    ensures e.OutboxWrite? && e.outboxOp.ReopenReport? && e.outboxOp.snapshot.id == id
    ensures e.outboxOp.snapshot.token != w.db.outbox[id].token
  {
    if Written(w, e).None? || Written(w, e).value.id != id {
      UnwrittenRowKept(w, e, id);
      assert false;
    }
    match e
    case OutboxWrite(op) =>
      SuccessRewritten(w, op);
      if op.ReopenAttention? {
        ReopenTouchesOnlySuppressed(w, op.snapshot);
        assert false;
      }
      CurrentSnapshotIsSafe(w, op.snapshot);
    case LeaseWrite(Commit(u, at)) =>
      assert false;
    case _ =>
  }

  // ----- when a stale reopening takes a sent row back

  /** An event that stores the row. */
  predicate Writes(w: World, e: Event, id: string) {
    Written(w, e).Some? && Written(w, e).value.id == id
  }

  /** A worker completes the row as sent: it finishes it, or commits its delivery. */
  predicate Sends(w: World, e: Event, id: string) {
    && Writes(w, e, id)
    && match e
       case OutboxWrite(Finish(_, outcome)) => outcome.Sent?
       case LeaseWrite(Commit(_, _)) => true
       case _ => false
  }

  /** The last event of a run to write the row sent it. */
  ghost predicate SentLast(w: World, events: seq<Event>, id: string) {
    exists k :: 0 <= k < |events| && Sends(Run(w, events[..k]), events[k], id) && QuietAfter(w, events, k, id)
  }

  ghost predicate QuietAfter(w: World, events: seq<Event>, k: nat, id: string) {
    forall j :: k < j < |events| ==> !Writes(Run(w, events[..j]), events[j], id)
  }

  predicate SentRow(w: World, id: string) {
    id in w.db.outbox && w.db.outbox[id].status.Succeeded? && w.db.outbox[id].payload.suppressed.Sent?
  }

  lemma SendsIff(w: World, e: Event, id: string)
    requires Rows(w)
    ensures SentRow(Apply(w, e), id) <==> if Writes(w, e, id) then Sends(w, e, id) else SentRow(w, id)
  {
    if Writes(w, e, id) {
      WrittenSends(w, e, id);
    }
    Effect(w, e);
  }

  lemma WrittenSends(w: World, e: Event, id: string)
    requires Rows(w) && Writes(w, e, id)
    ensures Written(w, e).value.status.Succeeded? && Written(w, e).value.payload.suppressed.Sent? <==> Sends(w, e, id)
  {
    match e
    case OutboxWrite(op) => OutboxSends(w, op);
    case LeaseWrite(Commit(u, at)) => assert Sane(w.jobs[w.windows[u].claim].row);
    case _ =>
  }

  /** Of the outbox writes only a finish stores a row as sent. */
  lemma OutboxSends(w: World, op: OutboxOp)
    requires VersionsSane(w) && JobsClaimed(w) && OutboxRow(w, op).Some?
    ensures OutboxRow(w, op).value.status.Succeeded? <==> op.Finish?
    ensures op.Finish? ==> OutboxRow(w, op).value.payload.suppressed == op.outcome
  {
    match op
    case Claim(_, _, _) =>
    case _ =>
  }

  lemma SentLastSplit(w: World, events: seq<Event>, id: string)
    requires events != []
    ensures var before, e := events[..|events| - 1], events[|events| - 1];
            SentLast(w, events, id) <==>
              if Writes(Run(w, before), e, id) then Sends(Run(w, before), e, id) else SentLast(w, before, id)
  {
    var n := |events| - 1;
    var before, e := events[..n], events[n];
    forall k | 0 <= k <= n ensures before[..k] == events[..k] {
    }
    if Writes(Run(w, before), e, id) {
      forall k | 0 <= k < n ensures !QuietAfter(w, events, k, id) {
        assert Writes(Run(w, events[..n]), events[n], id);
      }
      assert QuietAfter(w, events, n, id);
    } else {
      forall k | 0 <= k < n ensures QuietAfter(w, events, k, id) <==> QuietAfter(w, before, k, id) {
        QuietSplit(w, events, k, id);
      }
    }
  }

  lemma QuietSplit(w: World, events: seq<Event>, k: nat, id: string)
    requires k < |events| - 1
    ensures var before, e := events[..|events| - 1], events[|events| - 1];
            QuietAfter(w, events, k, id) <==> QuietAfter(w, before, k, id) && !Writes(Run(w, before), e, id)
  {
    var n := |events| - 1;
    var before := events[..n];
    forall j | k < j < n ensures before[..j] == events[..j] && before[j] == events[j] {
    }
  }

  lemma {:induction false} SentRowIff(w: World, events: seq<Event>, id: string)
    requires Rows(w) && id in w.db.outbox && !SentRow(w, id)
    ensures SentRow(Run(w, events), id) <==> SentLast(w, events, id)
  {
    if events != [] {
      var before, e := events[..|events| - 1], events[|events| - 1];
      SentRowIff(w, before, id);
      RowsAlways(w, before);
      SentLastSplit(w, events, id);
      SendsIff(Run(w, before), e, id);
    }
  }

  /** A service reads a report that was suppressed, and reopens it later, after any
      run. That takes back a notification exactly when in between another worker sent
      the row, and nothing wrote it after that. */
  lemma ReportReopenTakesBackIff(w: World, v: Intent, events: seq<Event>)
    requires Rows(w) && v.id in w.db.outbox && w.db.outbox[v.id] == v && v.status.Succeeded?
    requires v.payload.suppressed.ReminderNoLongerDue? || v.payload.suppressed.ReportVerbosity?
    ensures TakesBack(Run(w, events), OutboxWrite(ReopenReport(v)), v.id) <==> SentLast(w, events, v.id)
  {
    var u := Run(w, events);
    SentRowIff(w, events, v.id);
    RowsAlways(w, events);
    SeenStays(w, events, v);
    assert VersionsAgree(u);
    TakesBackSent(u, v);
  }

  lemma TakesBackSent(w: World, v: Intent)
    requires v in w.seen && v.id in w.db.outbox && v.status.Succeeded?
    requires v.payload.suppressed.ReminderNoLongerDue? || v.payload.suppressed.ReportVerbosity?
    ensures TakesBack(w, OutboxWrite(ReopenReport(v)), v.id) <==> SentRow(w, v.id)
  {
  }

  lemma {:induction false} SeenStays(w: World, events: seq<Event>, v: Intent)
    requires v in w.seen
    ensures v in Run(w, events).seen
  {
    if events != [] {
      SeenStays(w, events[..|events| - 1], v);
      Effect(Run(w, events[..|events| - 1]), events[|events| - 1]);
    }
  }

  lemma RunStep(w: World, events: seq<Event>, e: Event)
    ensures Run(w, events + [e]) == Apply(Run(w, events), e)
  {
    assert (events + [e])[..|events|] == events;
  }

  lemma {:induction false} RunsJoin(w: World, a: seq<Event>, b: seq<Event>)
    ensures Run(w, a + b) == Run(Run(w, a), b)
  {
    if b == [] {
      assert a + b == a;
    } else {
      RunsJoin(w, a, b[..|b| - 1]);
      assert (a + b)[..|a + b| - 1] == a + b[..|b| - 1];
    }
  }

  /** One delivery of a row through to `succeeded`, by the worker that draws `t`. */
  lemma Cycle(w: World, events: seq<Event>, v: Intent, t: Token, outcome: Suppression) returns (more: seq<Event>)
    requires var u := Run(w, events);
             && v in u.seen && v.status.Pending? && v.id in u.db.outbox && u.db.outbox[v.id] == v
             && t !in u.used && t != NO_TOKEN && !v.Attends() && u.windows == map[]
             && (outcome.Sent? || outcome.ReminderNoLongerDue? || outcome.ReportVerbosity?)
    ensures var u, x := Run(w, events), Run(w, more);
            var done := v.(status := Succeeded, attempts := v.attempts + 1, token := t,
                           claimExpiresAt := Some(u.now + CLAIM_SPAN),
                           payload := v.payload.(suppressed := outcome));
            && x.windows == map[] && x.used == u.used + {t} && x.now == u.now
            && v.id in x.db.outbox && x.db.outbox[v.id] == done && u.seen + {done} <= x.seen
  {
    var u := Run(w, events);
    var e1, e2, e3, e4 :=
          OutboxWrite(Claim(v, t, u.now)), Handler(Start(t)), Handler(Stop(t)), OutboxWrite(Finish(t, outcome));
    RunStep(w, events, e1);
    RunStep(w, events + [e1], e2);
    RunStep(w, events + [e1] + [e2], e3);
    RunStep(w, events + [e1] + [e2] + [e3], e4);
    more := events + [e1] + [e2] + [e3] + [e4];
    var u1 := Apply(u, e1);
    var u2 := Apply(u1, e2);
    var u3 := Apply(u2, e3);
    assert u1.jobs[t].handler == Waiting;
    assert u2.jobs[t].handler == Running(u.now);
    assert u3.jobs[t].handler == Over;
  }

  /** A run in which a sent report is taken back: the report is suppressed, two
      services read it, one reopens it and it is sent, and the other reopens it
      from the same old snapshot. */
  lemma StaleReopenTakesBack(i: Intent, now: Instant, reminderSeconds: int) returns (events: seq<Event>, e: Event)
    requires NewIntent(i) && i.kind.ReportIntent? && !i.Attends()
    ensures e.OutboxWrite? && e.outboxOp.ReopenReport?
    ensures TakesBack(Run(Initial(now, reminderSeconds), events), e, i.id)
  {
    var w := Initial(now, reminderSeconds);
    var enqueue := OutboxWrite(EnqueueIntent(i));
    RunStep(w, [], enqueue);
    assert [] + [enqueue] == [enqueue];
    events := Cycle(w, [enqueue], i, 1, ReportVerbosity);
    var suppressed := Run(w, events).db.outbox[i.id];
    e := OutboxWrite(ReopenReport(suppressed));
    RunStep(w, events, e);
    events := events + [e];
    events := Cycle(w, events, Reopened(suppressed, now), 2, Sent);
    assert suppressed in Run(w, events).seen;
  }
}
