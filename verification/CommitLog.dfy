/** The deliveries committed per case: the stored sequence counts them, and no
    request is committed twice. */
module CommitLog {
  import opened Types
  import opened Attention
  import opened Lifecycle
  import opened Outbox
  import opened Delivery
  import opened Fencing

  // ----- the shape of one step

  /** An event that commits a delivery. */
  predicate Delivers(w: World, e: Event) {
    e.LeaseWrite? && e.leaseOp.Commit? && Commits(w, e.leaseOp.lease, e.leaseOp.deliveredAt)
  }

  function DeliveryOf(w: World, e: Event): AttentionDelivery
    requires Delivers(w, e)
  {
    CommitDelivery(w.windows[e.leaseOp.lease], e.leaseOp.deliveredAt)
  }

  function RowOf(w: World, e: Event): Intent
    requires Delivers(w, e)
  {
    CommitRow(w, e.leaseOp.lease)
  }

  /** Only a commit touches the deliveries, and it appends one. */
  predicate LogStep(w: World, u: World, d: Option<AttentionDelivery>) {
    match d
    case None => u.log == w.log && u.db.attention == w.db.attention
    case Some(d) =>
      && u.log == w.log[d.caseId := LogOf(w, d.caseId) + [d]]
      && u.db.attention == w.db.attention[d.caseId := d]
      && d.sequence == Sequence(w.db, d.caseId) + 1
      && d.deliveredAt <= w.now
  }

  function Delivered(w: World, e: Event): Option<AttentionDelivery> {
    if Delivers(w, e) then Some(DeliveryOf(w, e)) else None
  }

  lemma LogEffect(w: World, e: Event)
    ensures LogStep(w, Apply(w, e), Delivered(w, e))
  {
    match e
    case LeaseWrite(Commit(_, _)) =>
    case LeaseWrite(_) =>
    case OutboxWrite(_) =>
    case Handler(_) =>
    case _ =>
  }

  // ----- the sequence counts commits

  predicate LogMatches(w: World) {
    && (forall c :: c in w.log ==> |w.log[c]| == Sequence(w.db, c))
    && (forall c :: c in w.db.attention ==>
          c in w.log && |w.log[c]| > 0 && w.log[c][|w.log[c]| - 1] == w.db.attention[c])
    && (forall c :: c in w.db.attention ==> w.db.attention[c].caseId == c)
    && (forall c, i :: c in w.log && 0 <= i < |w.log[c]| ==> w.log[c][i].sequence == i + 1)
  }

  lemma LogIsSequence(w: World, c: string)
    requires LogMatches(w)
    ensures |LogOf(w, c)| == Sequence(w.db, c)
    ensures Previous(w.db, c) == if LogOf(w, c) == [] then None else Some(LogOf(w, c)[|LogOf(w, c)| - 1])
  {
  }

  lemma LogMatchesKept(w: World, u: World, d: Option<AttentionDelivery>)
    requires LogMatches(w) && LogStep(w, u, d)
    ensures LogMatches(u)
  {
    if d.Some? {
      var c := d.value.caseId;
      LogIsSequence(w, c);
      assert u.log[c] == LogOf(w, c) + [d.value];
      forall x, i | x in u.log && 0 <= i < |u.log[x]| ensures u.log[x][i].sequence == i + 1 {
        if x != c || i < |LogOf(w, c)| {
          assert LogOf(w, x)[i].sequence == i + 1;
        }
      }
    }
  }

  lemma LogMatchesStep(w: World, e: Event)
    requires LogMatches(w)
    ensures LogMatches(Apply(w, e))
  {
    LogEffect(w, e);
    LogMatchesKept(w, Apply(w, e), Delivered(w, e));
  }

  /** How many events of a run commit a delivery for a case. */
  function CommitCount(w: World, events: seq<Event>, c: string): nat {
    if events == [] then 0
    else
      var before, e := events[..|events| - 1], events[|events| - 1];
      var s := Run(w, before);
      CommitCount(w, before, c) + if Delivers(s, e) && DeliveryOf(s, e).caseId == c then 1 else 0
  }

  /** The stored sequence of a case is the number of deliveries committed for it. */
  lemma {:induction false} SequenceCountsCommits(w: World, events: seq<Event>, c: string)
    ensures Sequence(Run(w, events).db, c) == Sequence(w.db, c) + CommitCount(w, events, c)
  {
    if events != [] {
      var before, e := events[..|events| - 1], events[|events| - 1];
      SequenceCountsCommits(w, before, c);
      LogEffect(Run(w, before), e);
    }
  }

  lemma CommitExtendsLog(w: World, e: Event)
    requires LogMatches(w) && Delivers(w, e)
    ensures var u, d := Apply(w, e), DeliveryOf(w, e);
            && LogOf(u, d.caseId) == LogOf(w, d.caseId) + [d] && d.sequence == |LogOf(u, d.caseId)|
            && (forall c :: c != d.caseId ==> LogOf(u, c) == LogOf(w, c))
  {
    LogEffect(w, e);
    LogIsSequence(w, DeliveryOf(w, e).caseId);
  }

  lemma CommitSettlesRow(w: World, e: Event)
    requires Rows(w) && Delivers(w, e)
    ensures var u, d, row := Apply(w, e), DeliveryOf(w, e), RowOf(w, e);
            && row.id in w.db.outbox && w.db.outbox[row.id].status.InProgress?
            && u.db.outbox == w.db.outbox[row.id := row] && row.status.Succeeded?
            && SameIntent(row, w.db.outbox[row.id])
            && d.caseId == row.caseId && d.caseId !in u.db.leases
  {
    CommitRowAdmissible(w, e.leaseOp.lease, e.leaseOp.deliveredAt);
  }

  /** A commit adds exactly one delivery for its case, none for others, and takes
      its own row from `in_progress` to `succeeded` in the same step; the lease is gone. */
  lemma CommitIsAtomic(w: World, e: Event)
    requires Rows(w) && LogMatches(w) && Delivers(w, e)
    ensures var u, d, row := Apply(w, e), DeliveryOf(w, e), RowOf(w, e);
            && LogOf(u, d.caseId) == LogOf(w, d.caseId) + [d] && d.sequence == |LogOf(u, d.caseId)|
            && (forall c :: c != d.caseId ==> LogOf(u, c) == LogOf(w, c))
            && row.id in w.db.outbox && w.db.outbox[row.id].status.InProgress?
            && u.db.outbox == w.db.outbox[row.id := row] && row.status.Succeeded?
            && SameIntent(row, w.db.outbox[row.id])
            && d.caseId == row.caseId && d.caseId !in u.db.leases
  {
    CommitExtendsLog(w, e);
    CommitSettlesRow(w, e);
  }

  /** Of two leases for one case with the same expected sequence, at most one commits. */
  lemma OneCommitPerSequence(w: World, e: Event, between: seq<Event>, later: Event)
    requires Delivers(w, e) && Delivers(Run(Apply(w, e), between), later)
    requires DeliveryOf(w, e).caseId == DeliveryOf(Run(Apply(w, e), between), later).caseId
    ensures w.windows[e.leaseOp.lease].sequence < Run(Apply(w, e), between).windows[later.leaseOp.lease].sequence
  {
    LogEffect(w, e);
    SequenceCountsCommits(Apply(w, e), between, DeliveryOf(w, e).caseId);
    LogEffect(Run(Apply(w, e), between), later);
  }

  // ----- one commit for one request

  predicate WindowTied(w: World, win: Window) {
    && win.claim in w.jobs && win.caseId == w.jobs[win.claim].row.caseId
    && win.sequence <= Sequence(w.db, win.caseId)
    && win.caseId in w.db.table.cases
    && (win.check.Some? && w.jobs[win.claim].row.Attends() ==>
          var r, k := w.jobs[win.claim].row.payload.request.value, win.check.value;
          && win.sequence == r.expectedSequence
          && k.kind == r.kind && k.generation == r.generation && k.phase == r.phase && k.severity == r.severity)
  }

  /** Windows belong to the claim they were leased under, and a checked attention
      window is for exactly the request of its row. */
  predicate WindowsTied(w: World) {
    forall u :: u in w.windows ==> u in w.used && WindowTied(w, w.windows[u])
  }

  /** A window as the lease is granted: nothing read, nothing checked. */
  predicate NewWindow(w: World, win: Window) {
    && win.check.None? && win.shown.None? && win.last.None?
    && win.claim in w.jobs && win.caseId == w.jobs[win.claim].row.caseId
    && win.caseId in w.db.table.cases && win.sequence == Sequence(w.db, win.caseId)
  }

  /** The same window, perhaps with one more read or with its check. */
  predicate SameWindow(w: World, e: Event, x: Token, win: Window)
    requires x in w.windows
  {
    var was := w.windows[x];
    && win.claim == was.claim && win.caseId == was.caseId && win.sequence == was.sequence
    && (win.check == was.check || Checked(w, e, x, win.check))
    && (ReadAgain(w, e, x, win) || (win.shown == was.shown && win.last == was.last))
  }

  lemma HandlerKeepsWindow(w: World, op: HandlerOp, x: Token)
    requires x in ApplyHandler(w, op).windows
    ensures x in w.windows && SameWindow(w, Handler(op), x, ApplyHandler(w, op).windows[x])
  {
    match op
    case Start(_) =>
    case Stop(_) =>
    case BeginSend(_) =>
    case EndSend(_) =>
    case ReadCase(_) =>
    case ReadAttention(_) =>
    case CheckAttention(_) =>
    case CheckReport(_, _, _) =>
  }

  /** A window after a step is new, or the same one. */
  lemma WindowEffect(w: World, e: Event, x: Token)
    requires x in Apply(w, e).windows && (x in w.windows ==> x in w.used)
    ensures var win := Apply(w, e).windows[x];
            if x in w.windows then SameWindow(w, e, x, win) else NewWindow(w, win) && x in Apply(w, e).used
  {
    match e
    case Handler(op) => HandlerKeepsWindow(w, op, x);
    case LeaseWrite(Acquire(_, _, _)) =>
    case LeaseWrite(_) => assert Apply(w, e).windows == w.windows;
    case OutboxWrite(_) => assert Apply(w, e).windows == w.windows;
    case _ =>
  }

  /** A read event and what it left in the window. */
  predicate ReadAgain(w: World, e: Event, x: Token, win: Window)
    requires x in w.windows
  {
    && e.Handler? && win.check == w.windows[x].check
    && match e.handlerOp
       case ReadCase(u) =>
         u == x && win.caseId in w.db.table.cases && win.shown == Some(w.db.table.cases[win.caseId]) && win.last.None?
       case ReadAttention(u) =>
         u == x && win.shown == w.windows[x].shown && win.last == Some(Previous(w.db, win.caseId))
       case _ => false
  }

  /** A check event and the check it recorded. */
  predicate Checked(w: World, e: Event, x: Token, k: Option<Check>) {
    && e.Handler? && MayCheck(w, x) && k.Some?
    && match e.handlerOp
       case CheckAttention(u) =>
         && u == x && StillOwed(w, x)
         && var r := w.jobs[w.windows[x].claim].row.payload.request.value;
            k.value == Check(r.kind, r.generation, r.phase, r.severity, w.now, None)
       case CheckReport(u, enabled, pending) =>
         && u == x && ReportAllowed(w, x, enabled, pending)
         && var row, c := w.jobs[w.windows[x].claim].row, w.windows[x].shown.value;
            k.value == Check(if row.payload.reminderSince.None? then New else Reminder,
                             c.generation, Firing, c.severity, w.now, Some(SignatureOf(row, c)))
       case _ => false
  }

  /** A commit may move report fields onto its case; otherwise only case writes
      touch the table. */
  lemma TableEffect(w: World, e: Event)
    ensures e.CaseWrite? ==> Apply(w, e).db.table == ApplyOp(w.db.table, e.write, w.now)
    ensures !e.CaseWrite? && !Delivers(w, e) ==> Apply(w, e).db.table == w.db.table
    ensures Delivers(w, e) ==>
              var c, report := DeliveryOf(w, e).caseId, w.windows[e.leaseOp.lease].check.value.report;
              && c in w.db.table.cases
              && Apply(w, e).db.table ==
                   if report.None? then w.db.table
                   else w.db.table.(cases :=
                          w.db.table.cases[c := ReportedCase(w.db.table.cases[c], report.value, e.leaseOp.deliveredAt)])
  {
    match e
    case LeaseWrite(op) => match op { case Commit(_, _) => case _ => }
    case OutboxWrite(_) =>
    case Handler(_) =>
    case _ =>
  }

  lemma CasesKept(w: World, e: Event, c: string)
    requires c in w.db.table.cases
    ensures c in Apply(w, e).db.table.cases
    ensures w.db.table.cases[c].generation <= Apply(w, e).db.table.cases[c].generation
  {
    TableEffect(w, e);
    if e.CaseWrite? {
      GenerationMonotone(w.db.table, e.write, w.now, c);
    }
  }

  lemma SequenceGrows(w: World, e: Event, c: string)
    ensures Sequence(w.db, c) <= Sequence(Apply(w, e).db, c)
  {
    LogEffect(w, e);
  }

  lemma JobsRemain(w: World, e: Event, t: Token)
    requires Rows(w) && t in w.jobs
    ensures t in Apply(w, e).jobs && Apply(w, e).jobs[t].row == w.jobs[t].row
  {
    RowsStep(w, e);
  }

  predicate JobsRemained(w: World, u: World) {
    forall t :: t in w.jobs ==> t in u.jobs && u.jobs[t].row == w.jobs[t].row
  }

  lemma AllJobsRemain(w: World, e: Event)
    requires Rows(w)
    ensures JobsRemained(w, Apply(w, e))
  {
    forall t | t in w.jobs ensures t in Apply(w, e).jobs && Apply(w, e).jobs[t].row == w.jobs[t].row {
      JobsRemain(w, e, t);
    }
  }

  lemma WindowTiedStep(w: World, e: Event, x: Token)
    requires JobsRemained(w, Apply(w, e)) && x in Apply(w, e).windows
    requires x in w.windows ==> x in w.used && WindowTied(w, w.windows[x])
    ensures WindowTied(Apply(w, e), Apply(w, e).windows[x])
  {
    var win := Apply(w, e).windows[x];
    WindowEffect(w, e, x);
    CasesKept(w, e, win.caseId);
    SequenceGrows(w, e, win.caseId);
  }

  lemma WindowsTiedStep(w: World, e: Event)
    requires Rows(w) && WindowsTied(w)
    ensures WindowsTied(Apply(w, e))
  {
    AllJobsRemain(w, e);
    Effect(w, e);
    forall x | x in Apply(w, e).windows
      ensures x in Apply(w, e).used && WindowTied(Apply(w, e), Apply(w, e).windows[x])
    {
      WindowEffect(w, e, x);
      WindowTiedStep(w, e, x);
    }
  }

  lemma CommitsItsRequest(w: World, e: Event) returns (r: AttentionRequest)
    requires Rows(w) && WindowsTied(w) && Delivers(w, e) && RowOf(w, e).Attends()
    ensures RowOf(w, e).payload.request == Some(r) && RowOf(w, e).key == RequestKeyOf(RowOf(w, e).caseId, r)
    ensures w.windows[e.leaseOp.lease].sequence == r.expectedSequence
    ensures DeliveryOf(w, e).caseId == RowOf(w, e).caseId
  {
    var win := w.windows[e.leaseOp.lease];
    assert WindowTied(w, win);
    var row := w.jobs[win.claim].row;
    assert Sane(row);
    r := row.payload.request.value;
  }

  lemma {:induction false} TiedAlways(w: World, events: seq<Event>)
    requires Rows(w) && WindowsTied(w)
    ensures Rows(Run(w, events)) && WindowsTied(Run(w, events))
  {
    if events != [] {
      var before, e := events[..|events| - 1], events[|events| - 1];
      TiedAlways(w, before);
      RowsStep(Run(w, before), e);
      WindowsTiedStep(Run(w, before), e);
    }
  }

  lemma SameKeySameTurn(w: World, e: Event, x: World, later: Event)
    requires Rows(w) && WindowsTied(w) && Delivers(w, e) && RowOf(w, e).Attends()
    requires Rows(x) && WindowsTied(x) && Delivers(x, later) && RowOf(x, later).Attends()
    requires RowOf(w, e).key == RowOf(x, later).key
    ensures DeliveryOf(w, e).caseId == DeliveryOf(x, later).caseId
    ensures w.windows[e.leaseOp.lease].sequence == x.windows[later.leaseOp.lease].sequence
  {
    var r := CommitsItsRequest(w, e);
    var s := CommitsItsRequest(x, later);
    RequestKeyInjective(RowOf(w, e).caseId, r.generation, r.phase, r.severity, r.expectedSequence, r.kind,
                        RowOf(x, later).caseId, s.generation, s.phase, s.severity, s.expectedSequence, s.kind);
  }

  lemma LaterTied(w: World, e: Event, between: seq<Event>)
    requires Rows(w) && WindowsTied(w)
    ensures Rows(Run(Apply(w, e), between)) && WindowsTied(Run(Apply(w, e), between))
  {
    RowsStep(w, e);
    WindowsTiedStep(w, e);
    TiedAlways(Apply(w, e), between);
  }

  /** Over any run, two commits are never for the same attention request. */
  lemma RequestCommittedOnce(w: World, e: Event, between: seq<Event>, x: World, later: Event)
    requires Rows(w) && WindowsTied(w) && Delivers(w, e) && RowOf(w, e).Attends()
    requires x == Run(Apply(w, e), between) && Delivers(x, later) && RowOf(x, later).Attends()
    ensures RowOf(w, e).key != RowOf(x, later).key
  {
    LaterTied(w, e, between);
    if RowOf(w, e).key == RowOf(x, later).key {
      SameKeySameTurn(w, e, x, later);
      OneCommitPerSequence(w, e, between, later);
    }
  }
}
