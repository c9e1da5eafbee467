/** How often a case may be announced: what every two adjacent committed deliveries
    of a case satisfy, on both send paths, and the bounds that follow. */
module Rate {
  import opened Types
  import opened Attention
  import opened Lifecycle
  import opened Outbox
  import opened Delivery
  import opened Fencing
  import opened CommitLog

  // ----- what a check guarantees about the delivery before it

  /** A delivery with phase, generation and severity as given may follow `p` at `at`. */
  predicate MayFollow(p: AttentionDelivery, generation: nat, phase: Phase, severity: Severity, at: Instant,
                      reminderSeconds: int)
  {
    && p.generation <= generation && p.deliveredAt <= at
    && (phase.Recovered? ==> p.phase.Firing? && severity == p.severity)
    && (phase.Firing? && p.phase.Firing? && p.generation == generation ==>
          && p.severity.Rank() <= severity.Rank()
          && (severity == p.severity ==> at - p.deliveredAt >= ReminderSpan(reminderSeconds)))
  }

  predicate Follows(p: AttentionDelivery, d: AttentionDelivery, reminderSeconds: int) {
    d.sequence == p.sequence + 1 && MayFollow(p, d.generation, d.phase, d.severity, d.deliveredAt, reminderSeconds)
  }

  /** What is kept about the check of an open turn, given the last delivery. */
  predicate Sound(p: Option<AttentionDelivery>, k: Check, reminderSeconds: int) {
    match p
    case None => k.phase.Firing?
    case Some(p) => !k.kind.New? && MayFollow(p, k.generation, k.phase, k.severity, k.at, reminderSeconds)
  }

  predicate DeliveriesBounded(w: World) {
    && KeyedById(w.db.table)
    && forall c :: c in w.db.attention ==>
         && c in w.db.table.cases && w.db.attention[c].caseId == c
         && w.db.attention[c].generation <= w.db.table.cases[c].generation
         && w.db.attention[c].deliveredAt <= w.now && w.db.attention[c].sequence > 0
  }

  /** What a window read is bounded by the case as it is now, and agrees with the
      last delivery for as long as the window's turn has not passed. */
  predicate ReadsSound(w: World, win: Window)
    requires win.caseId in w.db.table.cases
  {
    && (win.shown.Some? ==>
          && win.shown.value.generation <= w.db.table.cases[win.caseId].generation
          && (win.sequence == Sequence(w.db, win.caseId) && Previous(w.db, win.caseId).Some? ==>
                Previous(w.db, win.caseId).value.generation <= win.shown.value.generation))
    && (win.last.Some? && win.sequence == Sequence(w.db, win.caseId) ==> win.last.value == Previous(w.db, win.caseId))
  }

  predicate CheckSound(w: World, win: Window) {
    && win.caseId in w.db.table.cases && ReadsSound(w, win)
    && (win.check.Some? ==>
          && win.check.value.generation <= w.db.table.cases[win.caseId].generation
          && win.check.value.at <= w.now
          && (win.sequence == Sequence(w.db, win.caseId) ==>
                Sound(Previous(w.db, win.caseId), win.check.value, w.reminderSeconds)))
  }

  predicate ChecksSound(w: World) {
    forall u :: u in w.windows ==> u in w.used && CheckSound(w, w.windows[u])
  }

  /** A request that is owed may follow the last delivery. */
  lemma OwedMayFollow(c: AtomicCase, previous: Option<AttentionDelivery>, now: Instant, reminderSeconds: int,
                      r: AttentionRequest)
    requires AttentionDue(c, previous, now, reminderSeconds) == Due(r)
    requires previous.Some? ==> previous.value.generation <= c.generation && previous.value.deliveredAt <= now
    ensures Sound(previous, Check(r.kind, r.generation, r.phase, r.severity, now, None), reminderSeconds)
  {
  }

  /** A legacy reminder that is due is due against attention deliveries too. */
  lemma ReminderMayFollow(c: AtomicCase, previous: Option<AttentionDelivery>, pending: bool, now: Instant,
                          reminderSeconds: int, enabled: bool, report: Option<Signature>)
    requires var p := LegacyProjection(c, previous, pending);
             p.Some? && ShouldRemind(p.value, now, reminderSeconds, enabled)
    requires c.Monitored() && previous.Some? && previous.value.generation <= c.generation
    ensures Sound(previous, Check(Reminder, c.generation, Firing, c.severity, now, report), reminderSeconds)
  {
  }

  lemma CheckedSound(w: World, e: Event, x: Token, k: Check)
    requires DeliveriesBounded(w) && Checked(w, e, x, Some(k)) && x in w.windows
    requires w.windows[x].caseId in w.db.table.cases && ReadsSound(w, w.windows[x])
    ensures k.generation <= w.db.table.cases[w.windows[x].caseId].generation && k.at == w.now
    ensures w.windows[x].sequence == Sequence(w.db, w.windows[x].caseId) ==>
              Sound(Previous(w.db, w.windows[x].caseId), k, w.reminderSeconds)
  {
    var win := w.windows[x];
    var c, previous := win.shown.value, Previous(w.db, win.caseId);
    match e.handlerOp
    case CheckAttention(_) =>
      if win.sequence == Sequence(w.db, win.caseId) {
        OwedMayFollow(c, previous, w.now, w.reminderSeconds, w.jobs[win.claim].row.payload.request.value);
      }
    case CheckReport(_, enabled, pending) =>
      if w.jobs[win.claim].row.payload.reminderSince.Some? && previous.Some?
         && win.sequence == Sequence(w.db, win.caseId) {
        ReminderMayFollow(c, previous, pending, w.now, w.reminderSeconds, enabled, k.report);
      }
    case _ =>
  }

  // ----- preservation

  lemma Clocks(w: World, e: Event)
    ensures w.now <= Apply(w, e).now && Apply(w, e).reminderSeconds == w.reminderSeconds
  {
    match e
    case LeaseWrite(_) =>
    case OutboxWrite(_) =>
    case Handler(_) =>
    case _ =>
  }

  lemma KeyedStep(w: World, e: Event)
    requires KeyedById(w.db.table)
    ensures KeyedById(Apply(w, e).db.table)
  {
    TableEffect(w, e);
    if e.CaseWrite? {
      KeysKept(w.db.table, e.write, w.now);
    }
  }

  /** What a commit is known to satisfy. */
  lemma CommitSound(w: World, e: Event)
    requires DeliveriesBounded(w) && ChecksSound(w) && Delivers(w, e)
    ensures var d, p := DeliveryOf(w, e), Previous(w.db, DeliveryOf(w, e).caseId);
            && d.caseId in w.db.table.cases && d.generation <= w.db.table.cases[d.caseId].generation
            && d.deliveredAt <= w.now
            && d.sequence > 0
            && (p.Some? ==> Follows(p.value, d, w.reminderSeconds))
            && (p.None? ==> d.phase.Firing?)
  {
    assert CheckSound(w, w.windows[e.leaseOp.lease]);
  }

  lemma DeliveriesBoundedStep(w: World, e: Event)
    requires DeliveriesBounded(w) && ChecksSound(w)
    ensures DeliveriesBounded(Apply(w, e))
  {
    var u := Apply(w, e);
    KeyedStep(w, e);
    LogEffect(w, e);
    Clocks(w, e);
    if Delivers(w, e) {
      CommitSound(w, e);
    }
    forall c | c in u.db.attention
      ensures c in u.db.table.cases && u.db.attention[c].caseId == c
      ensures u.db.attention[c].generation <= u.db.table.cases[c].generation
      ensures u.db.attention[c].deliveredAt <= u.now && u.db.attention[c].sequence > 0
    {
      CasesKept(w, e, c);
    }
  }

  lemma ReadsSoundStep(w: World, e: Event, x: Token)
    requires DeliveriesBounded(w) && x in Apply(w, e).windows
    requires x in w.windows ==> x in w.used && CheckSound(w, w.windows[x]) && WindowTied(w, w.windows[x])
    ensures var u, win := Apply(w, e), Apply(w, e).windows[x]; win.caseId in u.db.table.cases && ReadsSound(u, win)
  {
    WindowEffect(w, e, x);
    CasesKept(w, e, Apply(w, e).windows[x].caseId);
    LogEffect(w, e);
  }

  lemma CheckSoundStep(w: World, e: Event, x: Token)
    requires DeliveriesBounded(w) && x in Apply(w, e).windows
    requires x in w.windows ==> x in w.used && CheckSound(w, w.windows[x]) && WindowTied(w, w.windows[x])
    ensures CheckSound(Apply(w, e), Apply(w, e).windows[x])
  {
    var u, win := Apply(w, e), Apply(w, e).windows[x];
    ReadsSoundStep(w, e, x);
    WindowEffect(w, e, x);
    if win.check.Some? {
      CasesKept(w, e, win.caseId);
      LogEffect(w, e);
      Clocks(w, e);
      if win.check != w.windows[x].check {
        CheckedSound(w, e, x, win.check.value);
      }
    }
  }

  lemma ChecksSoundStep(w: World, e: Event)
    requires DeliveriesBounded(w) && ChecksSound(w) && WindowsTied(w)
    ensures ChecksSound(Apply(w, e))
  {
    forall x | x in Apply(w, e).windows
      ensures x in Apply(w, e).used && CheckSound(Apply(w, e), Apply(w, e).windows[x])
    {
      CheckSoundStep(w, e, x);
      WindowEffect(w, e, x);
      Effect(w, e);
    }
  }

  predicate LogFollows(log: seq<AttentionDelivery>, reminderSeconds: int) {
    && (log != [] ==> log[0].phase.Firing?)
    && forall i :: 0 < i < |log| ==> Follows(log[i - 1], log[i], reminderSeconds)
  }

  predicate LogsFollow(w: World) {
    forall c :: c in w.log ==> LogFollows(w.log[c], w.reminderSeconds)
  }

  lemma LogsFollowStep(w: World, e: Event)
    requires DeliveriesBounded(w) && ChecksSound(w) && LogMatches(w) && LogsFollow(w)
    ensures LogsFollow(Apply(w, e))
  {
    LogEffect(w, e);
    Clocks(w, e);
    if Delivers(w, e) {
      CommitSound(w, e);
      LogIsSequence(w, DeliveryOf(w, e).caseId);
      Extended(LogOf(w, DeliveryOf(w, e).caseId), DeliveryOf(w, e), w.reminderSeconds);
    }
  }

  lemma Extended(log: seq<AttentionDelivery>, d: AttentionDelivery, reminderSeconds: int)
    requires LogFollows(log, reminderSeconds)
    requires if log == [] then d.phase.Firing? else Follows(log[|log| - 1], d, reminderSeconds)
    ensures LogFollows(log + [d], reminderSeconds)
  {
  }

  ghost predicate Paced(w: World) {
    Rows(w) && WindowsTied(w) && LogMatches(w) && DeliveriesBounded(w) && ChecksSound(w) && LogsFollow(w)
  }

  lemma PacedStep(w: World, e: Event)
    requires Paced(w)
    ensures Paced(Apply(w, e))
  {
    RowsStep(w, e);
    WindowsTiedStep(w, e);
    LogMatchesStep(w, e);
    DeliveriesBoundedStep(w, e);
    ChecksSoundStep(w, e);
    LogsFollowStep(w, e);
  }

  lemma {:induction false} PacedAlways(w: World, events: seq<Event>)
    requires Paced(w)
    ensures Paced(Run(w, events)) && Run(w, events).reminderSeconds == w.reminderSeconds
  {
    if events != [] {
      var before, e := events[..|events| - 1], events[|events| - 1];
      PacedAlways(w, before);
      PacedStep(Run(w, before), e);
      Clocks(Run(w, before), e);
    }
  }

  lemma InitialPaced(now: Instant, reminderSeconds: int)
    ensures Paced(Initial(now, reminderSeconds))
  {
  }

  // ----- bounds

  /** A stretch of firing deliveries of one generation. */
  predicate OneEpisode(log: seq<AttentionDelivery>) {
    forall i :: 0 <= i < |log| ==> log[i].phase.Firing? && log[i].generation == log[0].generation
  }

  function Escalations(log: seq<AttentionDelivery>): nat {
    if |log| < 2 then 0
    else
      var rises := log[|log| - 2].severity.Rank() < log[|log| - 1].severity.Rank();
      Escalations(log[..|log| - 1]) + if rises then 1 else 0
  }

  /** In one episode severity never falls, it rises at most three times, and the
      deliveries that are not rises are each a reminder span apart. */
  lemma {:induction false} EpisodeBound(log: seq<AttentionDelivery>, reminderSeconds: int)
    requires |log| > 0 && OneEpisode(log)
    requires forall i :: 0 < i < |log| ==> Follows(log[i - 1], log[i], reminderSeconds)
    ensures Escalations(log) <= log[|log| - 1].severity.Rank() - log[0].severity.Rank() <= 3
    ensures forall i, j :: 0 <= i <= j < |log| ==> log[i].severity.Rank() <= log[j].severity.Rank()
    ensures log[|log| - 1].deliveredAt - log[0].deliveredAt
            >= (|log| - 1 - Escalations(log)) * ReminderSpan(reminderSeconds)
  {
    var span, n := ReminderSpan(reminderSeconds), |log|;
    if n > 1 {
      var init := log[..n - 1];
      EpisodeBound(init, reminderSeconds);
      assert forall i :: 0 <= i < |init| ==> init[i] == log[i];
      assert Follows(log[n - 2], log[n - 1], reminderSeconds);
      if log[n - 2].severity == log[n - 1].severity {
        assert Escalations(log) == Escalations(init);
        var k := n - 2 - Escalations(init);
        assert (k + 1) * span == k * span + span;
      }
    }
  }

  lemma FewerSpans(a: int, b: int, span: int)
    requires a <= b && span >= 0
    ensures a * span <= b * span
  {
  }

  predicate PacedStretch(part: seq<AttentionDelivery>, span: int)
    requires |part| > 0
  {
    && Escalations(part) <= 3
    && (forall a, b :: 0 <= a <= b < |part| ==> part[a].severity.Rank() <= part[b].severity.Rank())
    && part[|part| - 1].deliveredAt - part[0].deliveredAt >= (|part| - 4) * span
  }

  lemma StretchPaced(log: seq<AttentionDelivery>, i: nat, j: nat, reminderSeconds: int)
    requires LogFollows(log, reminderSeconds) && i < j <= |log| && OneEpisode(log[i..j])
    ensures PacedStretch(log[i..j], ReminderSpan(reminderSeconds))
  {
    var part := log[i..j];
    forall k | 0 < k < |part| ensures Follows(part[k - 1], part[k], reminderSeconds) {
      assert Follows(log[i + k - 1], log[i + k], reminderSeconds);
    }
    EpisodeBound(part, reminderSeconds);
    FewerSpans(|part| - 4, |part| - 1 - Escalations(part), ReminderSpan(reminderSeconds));
  }

  /** Over every run, for any stretch of deliveries of one case within one
      generation and without a recovery: at most three are escalations, severity
      never falls, and `n` deliveries take at least `n - 4` reminder spans. */
  lemma DeliveriesArePaced(now: Instant, reminderSeconds: int, events: seq<Event>, c: string, i: nat, j: nat)
    requires i < j <= |LogOf(Run(Initial(now, reminderSeconds), events), c)|
    requires OneEpisode(LogOf(Run(Initial(now, reminderSeconds), events), c)[i..j])
    ensures PacedStretch(LogOf(Run(Initial(now, reminderSeconds), events), c)[i..j],
                         Max(Seconds(21600), Seconds(reminderSeconds)))
  {
    InitialPaced(now, reminderSeconds);
    PacedAlways(Initial(now, reminderSeconds), events);
    StretchPaced(LogOf(Run(Initial(now, reminderSeconds), events), c), i, j, reminderSeconds);
  }

  /** Adjacent firing deliveries of one generation without a rise are at least the
      reminder span apart; generations never go back; a recovery follows a firing
      delivery at its severity. */
  lemma AdjacentDeliveries(now: Instant, reminderSeconds: int, events: seq<Event>, c: string, i: nat)
    requires 0 < i < |LogOf(Run(Initial(now, reminderSeconds), events), c)|
    ensures var log := LogOf(Run(Initial(now, reminderSeconds), events), c);
            var p, d := log[i - 1], log[i];
            && p.generation <= d.generation
            && (d.phase.Recovered? ==> p.phase.Firing? && d.severity == p.severity)
            && (p.phase.Firing? && d.phase.Firing? && p.generation == d.generation
                && d.severity.Rank() <= p.severity.Rank() ==>
                  d.deliveredAt - p.deliveredAt >= Max(Seconds(21600), Seconds(reminderSeconds)))
  {
    InitialPaced(now, reminderSeconds);
    PacedAlways(Initial(now, reminderSeconds), events);
    var log := LogOf(Run(Initial(now, reminderSeconds), events), c);
    assert Follows(log[i - 1], log[i], reminderSeconds);
  }
}
