/** Delivery of a report intent (app/cases/handlers.py): with attention deliveries
    in play it shares the attention lease, otherwise it sends and stamps the case. */
module ReportHandlers {
  import opened Types
  import opened Attention
  import opened Lifecycle
  import opened Outbox
  import opened Delivery
  import opened Deployments
  import opened AttentionHandlers

  /** What the handler reads of the case it is about to report. */
  datatype Reading = Missing | Stale | Fit(shown: AtomicCase, signature: Signature)

  predicate OnFile(w: World, row: Intent) {
    row.caseId in w.db.table.cases && w.db.table.cases[row.caseId].Monitored()
  }

  /** Whether the report fits what was read: a reminder must match its anchor and
      signature, and be due at the instant, on the later of the two clocks. */
  method JudgeReport(row: Intent, found: AtomicCase, pending: bool, previous: Option<AttentionDelivery>, now: Instant,
               reminderSeconds: int, enabled: bool) returns (r: Reading)
    requires row.payload.reminderSince.Some?
    ensures var seen := LegacyProjection(found, previous, pending);
            r == if seen.Some? && StillDue(row, seen.value, now, reminderSeconds, enabled)
                 then Fit(seen.value, SignatureOf(row, found)) else Stale
  {
    var c := found;
    var signature := SignatureOf(row, c);
    if c.Monitored() {
      if pending {
        return Stale;
      }
      if previous.Some? && (c.lastReportedAt.None? || previous.value.deliveredAt > c.lastReportedAt.value) {
        c := c.(lastReportedAt := Some(previous.value.deliveredAt));
      }
    }
    if row.payload.reminderSince != c.lastReportedAt || signature != c.ReportSignature()
       || !ShouldRemind(c, now, reminderSeconds, enabled) {
      return Stale;
    }
    r := Fit(c, signature);
  }

  /** The states in which a report's case, outstanding attention, last delivery and the
      clock were read. */
  datatype Inspection = Inspection(cased: World, asked: World, delivered: World, judged: World)

  ghost predicate InInspection(env: Deployment, w: World, g: Inspection, u: World) {
    && env.leads(w, g.cased) && env.leads(g.cased, g.asked) && env.leads(g.asked, g.delivered)
    && env.leads(g.delivered, g.judged) && env.leads(g.judged, u)
  }

  /** What the reads amount to. A report that is no reminder reads its case only. */
  ghost function Reads(g: Inspection, row: Intent, enabled: bool): Reading {
    if row.caseId !in g.cased.db.table.cases then Missing
    else
      var c := g.cased.db.table.cases[row.caseId];
      if row.payload.reminderSince.None? then Fit(c, SignatureOf(row, c))
      else
        var seen := LegacyProjection(c, Previous(g.delivered.db, row.caseId), PendingAttention(g.asked.db, row.caseId));
        if seen.Some? && StillDue(row, seen.value, g.judged.now, g.judged.reminderSeconds, enabled)
        then Fit(seen.value, SignatureOf(row, c)) else Stale
  }

  /** The states a call passed through: where it chose its path, read whose turn it is,
      claimed the lease, read the case, and heard from the transport. */
  datatype ReportAttempt = ReportAttempt(entry: World, turn: World, leasing: World, look: Inspection, sent: World)

  ghost predicate InReport(env: Deployment, w: World, a: ReportAttempt, u: World) {
    && env.leads(w, a.entry) && env.leads(a.entry, a.turn) && env.leads(a.turn, a.leasing)
    && InInspection(env, a.leasing, a.look, a.sent) && env.leads(a.sent, u)
  }

  predicate SkipsTurn(row: Intent, entry: World, enabled: bool, cardUpdate: bool) {
    (row.payload.reminderSince.None? && (!enabled || cardUpdate)) || !OnFile(entry, row)
  }

  /** Reminders, and first reports of a monitored case, take the attention lease. */
  predicate TakesLease(row: Intent, a: ReportAttempt, enabled: bool, cardUpdate: bool) {
    && !SkipsTurn(row, a.entry, enabled, cardUpdate)
    && (Previous(a.turn.db, row.caseId).None? || row.payload.reminderSince.Some?)
  }

  /** The outcome of sending a report that is fit. */
  predicate Answered(row: Intent, shown: AtomicCase, signature: Signature, sent: World, x: Fate, sequence: Option<nat>,
                     o: HandlerOutcome)
  {
    match x.answer
    case SendRaised => o.Raised?
    case NotDelivered => o.Raised?
    case Withheld => o == Quiet(ReportVerbosity)
    case Superseded(_) => o == Quiet(Sent)
    case Delivered =>
      if sequence.None? then o == Quiet(Sent)
      else
        && o.Announced? && o.kind == (if row.payload.reminderSince.None? then New else Reminder)
        && o.report == Some(signature)
        && o.delivery == AttentionDelivery(row.caseId, shown.generation, Firing, shown.severity, sent.now,
                                           sequence.value + 1)
  }

  /** The outcome of reading and sending; a delivery is for the turn after `sequence`. */
  ghost predicate Concludes(row: Intent, look: Inspection, sent: World, enabled: bool, x: Fate, sequence: Option<nat>,
                            o: HandlerOutcome)
  {
    match Reads(look, row, enabled)
    case Missing => o.Raised?
    case Stale => o == Quiet(ReminderNoLongerDue)
    case Fit(shown, signature) => Answered(row, shown, signature, sent, x, sequence, o)
  }

  /** How the states passed and the fate of a call determine its outcome. */
  ghost predicate ReportAttempted(row: Intent, a: ReportAttempt, enabled: bool, cardUpdate: bool, x: Fate,
                                  o: HandlerOutcome)
  {
    if !TakesLease(row, a, enabled, cardUpdate) then Concludes(row, a.look, a.sent, enabled, x, None, o)
    else if !CanLease(a.leasing.db, a.leasing.now, row, Sequence(a.turn.db, row.caseId)) || x.cancelled then o.Raised?
    else
      var sequence := if cardUpdate then None else Some(Sequence(a.turn.db, row.caseId));
      Concludes(row, a.look, a.sent, enabled, x, sequence, o)
  }

  /** What a first report is told apart by: it needs the case only. A reminder goes out only
      while no attention is outstanding for a monitored case, its anchor is the later of the
      two clocks, and the state it was requested for is still the one to repeat. */
  lemma FitIff(g: Inspection, row: Intent, enabled: bool)
    requires row.caseId in g.cased.db.table.cases
    ensures Reads(g, row, enabled).Fit? <==>
              || row.payload.reminderSince == None
              || var c, last := g.cased.db.table.cases[row.caseId], Previous(g.delivered.db, row.caseId);
                 var since := if c.Monitored() && last.Some?
                                 && (c.lastReportedAt.None? || c.lastReportedAt.value < last.value.deliveredAt)
                              then Some(last.value.deliveredAt) else c.lastReportedAt;
                 && !(c.Monitored() && PendingAttention(g.asked.db, row.caseId))
                 && row.payload.reminderSince == since
                 && (row.signature == None || row.signature == Some(c.ReportSignature()))
                 && ShouldRemind(c.(lastReportedAt := since), g.judged.now, g.judged.reminderSeconds, enabled)
  {
  }

  /** Which reports go by attention's turns: of a monitored case, every reminder, and a
      first report that is no card update while attention is on and nothing was delivered. */
  predicate ByTurn(row: Intent, a: ReportAttempt, enabled: bool, cardUpdate: bool) {
    && row.caseId in a.entry.db.table.cases
    && a.entry.db.table.cases[row.caseId].source in {Some("alertmanager"), Some("icinga2")}
    && (row.payload.reminderSince != None || (enabled && !cardUpdate && row.caseId !in a.turn.db.attention))
  }

  /** A report becomes a delivery of its own exactly when it goes by turns, is granted the
      turn, is in time and no card update, and the transport delivers what is still fit. */
  lemma ReportAnnouncedIff(row: Intent, a: ReportAttempt, enabled: bool, cardUpdate: bool, x: Fate, o: HandlerOutcome)
    requires ReportAttempted(row, a, enabled, cardUpdate, x, o)
    ensures o.Announced? ==> row.caseId in a.look.cased.db.table.cases
    ensures o.Announced? <==>
              && ByTurn(row, a, enabled, cardUpdate) && !cardUpdate && !x.cancelled && x.answer == Delivered
              && CanLease(a.leasing.db, a.leasing.now, row, Sequence(a.turn.db, row.caseId))
              && Reads(a.look, row, enabled).Fit?
    ensures o.Announced? ==>
              var c := a.look.cased.db.table.cases[row.caseId];
              && o.kind == (if row.payload.reminderSince == None then New else Reminder)
              && o.report == Some(if row.signature.Some? then row.signature.value else c.ReportSignature())
              && o.delivery == AttentionDelivery(row.caseId, c.generation, Firing, c.severity, a.sent.now,
                                                 Sequence(a.turn.db, row.caseId) + 1)
    ensures o == Quiet(ReportVerbosity) ==> x.answer == Withheld && Reads(a.look, row, enabled).Fit?
    ensures o == Quiet(ReminderNoLongerDue) ==> Reads(a.look, row, enabled).Stale?
    ensures o == Quiet(Sent) ==> (x.answer == Delivered || x.answer.Superseded?) && Reads(a.look, row, enabled).Fit?
  {
  }

  /** Off turn the outcome is the transport's alone. */
  lemma OffTurnOutcome(row: Intent, a: ReportAttempt, enabled: bool, cardUpdate: bool, x: Fate, o: HandlerOutcome)
    requires ReportAttempted(row, a, enabled, cardUpdate, x, o) && !ByTurn(row, a, enabled, cardUpdate)
    ensures o == if row.caseId !in a.look.cased.db.table.cases then Raised
                 else if !Reads(a.look, row, enabled).Fit? then Quiet(ReminderNoLongerDue)
                 else if x.answer == Withheld then Quiet(ReportVerbosity)
                 else if x.answer == Delivered || x.answer.Superseded? then Quiet(Sent)
                 else Raised
  {
  }

  /** The database a report sent without a lease leaves: a delivered one stamps its case. */
  ghost function Stamped(row: Intent, look: Inspection, sent: World, enabled: bool, cardUpdate: bool, x: Fate): Db {
    if Reads(look, row, enabled).Fit? && x.answer.Delivered? && !cardUpdate && row.caseId in sent.db.table.cases
    then Apply(sent, CaseWrite(MarkReported(row.caseId, Reads(look, row, enabled).signature))).db
    else sent.db
  }

  /** Off turn only a delivered report that is no card update is stamped, with the instant
      of its sending and the state it was requested for, or else the one that was read. */
  lemma StampedIff(row: Intent, look: Inspection, sent: World, enabled: bool, cardUpdate: bool, x: Fate)
    ensures var id, db := row.caseId, Stamped(row, look, sent, enabled, cardUpdate, x);
            if x.answer == Delivered && !cardUpdate && Reads(look, row, enabled).Fit? && id in sent.db.table.cases then
              var state := if row.signature.Some? then row.signature.value
                  else look.cased.db.table.cases[id].ReportSignature();
              && id in db.table.cases && db == sent.db.(table := db.table) && db.table.scopes == sent.db.table.scopes
              && db.table.cases == sent.db.table.cases[id := db.table.cases[id]]
              && db.table.cases[id] ==
                   sent.db.table.cases[id].(lastReportedAt := Some(sent.now), lastReportedSignature := Some(state))
            else db == sent.db
  {
    assert Reads(look, row, enabled).Fit? ==> row.caseId in look.cased.db.table.cases;
  }

  /** Without a lease: the case, outstanding attention, the last delivery and the
      clock are read one after another. */
  method Read(env: Deployment, row: Intent, enabled: bool) returns (r: Reading, ghost g: Inspection)
    requires env.Valid() && Working(env.world, row) && NoWindows(env.world, row.token)
    modifies env`nextToken, env`world, env.store
    ensures env.Valid() && Working(env.world, row) && NoWindows(env.world, row.token)
    ensures InInspection(env, old(env.world), g, env.world) && r == Reads(g, row, enabled)
  {
    ghost var cased := env.world;
    g := Inspection(cased, cased, cased, cased);
    if row.caseId !in env.store.cases {
      return Missing, g;
    }
    var c := env.store.cases[row.caseId];
    if row.payload.reminderSince.None? {
      return Fit(c, SignatureOf(row, c)), g;
    }
    env.Interfere({row.token});
    ghost var asked := env.world;
    var outstanding := env.store.HasPendingAttention(row.caseId);
    env.Interfere({row.token});
    ghost var delivered := env.world;
    var last := env.store.GetAttention(row.caseId);
    env.Interfere({row.token});
    g := Inspection(cased, asked, delivered, env.world);
    r := JudgeReport(row, c, outstanding, last, env.store.now, env.reminderSeconds, enabled);
  }

  method HandleReport(env: Deployment, row: Intent, enabled: bool, cardUpdate: bool, x: Fate)
    returns (o: HandlerOutcome, ghost a: ReportAttempt)
    requires env.Valid() && Ready(env.world, row) && !row.Attends() && row.kind.ReportIntent?
    modifies env`nextToken, env`world, env.store
    ensures env.Valid() && Handled(env.world, row, o)
    ensures InReport(env, old(env.world), a, env.world) && ReportAttempted(row, a, enabled, cardUpdate, x, o)
    ensures !TakesLease(row, a, enabled, cardUpdate) ==>
              env.world.db == Stamped(row, a.look, a.sent, enabled, cardUpdate, x)
  {
    env.Step(Start(row.token));
    o, a := AttemptReport(env, row, enabled, cardUpdate, x);
    env.Step(Stop(row.token));
  }

  method AttemptReport(env: Deployment, row: Intent, enabled: bool, cardUpdate: bool, x: Fate)
    returns (o: HandlerOutcome, ghost a: ReportAttempt)
    requires env.Valid() && Working(env.world, row) && NoWindows(env.world, row.token) && !row.Attends()
             && row.kind.ReportIntent?
    modifies env`nextToken, env`world, env.store
    ensures env.Valid() && Working(env.world, row) && WindowsOver(env.world, row.token) && Vouched(env.world, row, o)
    ensures InReport(env, old(env.world), a, env.world) && ReportAttempted(row, a, enabled, cardUpdate, x, o)
    ensures !TakesLease(row, a, enabled, cardUpdate) ==>
              env.world.db == Stamped(row, a.look, a.sent, enabled, cardUpdate, x)
  {
    env.Interfere({row.token});
    ghost var entry := env.world;
    if row.payload.reminderSince.None? && (!enabled || cardUpdate) {
      o, a := WithoutTurn(env, row, enabled, cardUpdate, x, entry);
      return;
    }
    if row.caseId !in env.store.cases || !env.store.cases[row.caseId].Monitored() {
      o, a := WithoutTurn(env, row, enabled, cardUpdate, x, entry);
      return;
    }
    o, a := InTurn(env, row, enabled, cardUpdate, x, entry);
  }

  method WithoutTurn(env: Deployment, row: Intent, enabled: bool, cardUpdate: bool, x: Fate, ghost entry: World)
    returns (o: HandlerOutcome, ghost a: ReportAttempt)
    requires env.Valid() && Working(env.world, row) && NoWindows(env.world, row.token) && !row.Attends()
    requires entry == env.world && SkipsTurn(row, entry, enabled, cardUpdate)
    modifies env`nextToken, env`world, env.store
    ensures env.Valid() && Working(env.world, row) && WindowsOver(env.world, row.token) && Vouched(env.world, row, o)
    ensures a.entry == entry && InReport(env, entry, a, env.world) && ReportAttempted(row, a, enabled, cardUpdate, x, o)
    ensures !TakesLease(row, a, enabled, cardUpdate)
            && env.world.db == Stamped(row, a.look, a.sent, enabled, cardUpdate, x)
  {
    ghost var look, sent;
    o, look, sent := DeliverUnleased(env, row, enabled, cardUpdate, x);
    a := ReportAttempt(entry, entry, entry, look, sent);
  }

  /** The path of a monitored case, on which the last delivery tells whose turn it is. */
  method InTurn(env: Deployment, row: Intent, enabled: bool, cardUpdate: bool, x: Fate, ghost entry: World)
    returns (o: HandlerOutcome, ghost a: ReportAttempt)
    requires env.Valid() && Working(env.world, row) && NoWindows(env.world, row.token) && !row.Attends()
             && row.kind.ReportIntent?
    requires entry == env.world && !SkipsTurn(row, entry, enabled, cardUpdate)
    modifies env`nextToken, env`world, env.store
    ensures env.Valid() && Working(env.world, row) && WindowsOver(env.world, row.token) && Vouched(env.world, row, o)
    ensures InReport(env, entry, a, env.world) && ReportAttempted(row, a, enabled, cardUpdate, x, o)
    ensures !TakesLease(row, a, enabled, cardUpdate) ==>
              env.world.db == Stamped(row, a.look, a.sent, enabled, cardUpdate, x)
  {
    var previous := ReadTurn(env, row);
    ghost var turn := env.world;
    ghost var leasing, look, sent;
    if previous.Some? && row.payload.reminderSince.None? {
      o, look, sent := DeliverUnleased(env, row, enabled, cardUpdate, x);
      a := ReportAttempt(entry, turn, turn, look, sent);
      return;
    }
    o, leasing, look, sent :=
      DeliverLeased(env, row, enabled, cardUpdate, if previous.Some? then previous.value.sequence else 0, x);
    a := ReportAttempt(entry, turn, leasing, look, sent);
  }

  method ReadTurn(env: Deployment, row: Intent) returns (previous: Option<AttentionDelivery>)
    requires env.Valid() && Working(env.world, row) && NoWindows(env.world, row.token) && OnFile(env.world, row)
    modifies env`nextToken, env`world, env.store
    ensures env.Valid() && Working(env.world, row) && NoWindows(env.world, row.token) && OnFile(env.world, row)
    ensures env.leads(old(env.world), env.world) && previous == Previous(env.world.db, row.caseId)
  {
    env.Interfere({row.token});
    previous := env.store.GetAttention(row.caseId);
  }

  /** Without a lease the outcome is never an attention delivery; the case row is stamped. */
  method DeliverUnleased(env: Deployment, row: Intent, enabled: bool, cardUpdate: bool, x: Fate)
    returns (o: HandlerOutcome, ghost look: Inspection, ghost sent: World)
    requires env.Valid() && Working(env.world, row) && NoWindows(env.world, row.token) && !row.Attends()
    modifies env`nextToken, env`world, env.store
    ensures env.Valid() && Working(env.world, row) && NoWindows(env.world, row.token)
    ensures !o.Announced? && (o.Quiet? ==> OutcomeFits(row, o.outcome))
    ensures InInspection(env, old(env.world), look, sent) && env.leads(sent, env.world)
    ensures Concludes(row, look, sent, enabled, x, None, o)
    ensures env.world.db == Stamped(row, look, sent, enabled, cardUpdate, x)
  {
    var reading;
    reading, look := Read(env, row, enabled);
    sent := env.world;
    if reading.Missing? {
      return Raised, look, sent;
    }
    if reading.Stale? {
      return Quiet(ReminderNoLongerDue), look, sent;
    }
    o, sent := SendUnleased(env, row, cardUpdate, reading.signature, x);
  }

  method SendUnleased(env: Deployment, row: Intent, cardUpdate: bool, signature: Signature, x: Fate)
    returns (o: HandlerOutcome, ghost sent: World)
    requires env.Valid() && Working(env.world, row) && NoWindows(env.world, row.token) && !row.Attends()
    modifies env`nextToken, env`world, env.store
    ensures env.Valid() && Working(env.world, row) && NoWindows(env.world, row.token)
    ensures !o.Announced? && (o.Quiet? ==> OutcomeFits(row, o.outcome))
    ensures env.leads(old(env.world), sent) && env.leads(sent, env.world)
    ensures forall c :: Answered(row, c, signature, sent, x, None, o)
    ensures env.world.db == if x.answer.Delivered? && !cardUpdate && row.caseId in sent.db.table.cases
                            then Apply(sent, CaseWrite(MarkReported(row.caseId, signature))).db else sent.db
  {
    env.Interfere({row.token});
    sent := env.world;
    match x.answer
    case SendRaised => o := Raised;
    case NotDelivered => o := Raised;
    case Withheld => o := Quiet(ReportVerbosity);
    case Superseded(_) => o := Quiet(Sent);
    case Delivered =>
      o := Quiet(Sent);
      if !cardUpdate && row.caseId in env.store.cases {
        StampCase(env, row, signature);
      }
  }

  method StampCase(env: Deployment, row: Intent, signature: Signature)
    requires env.Valid() && row.caseId in env.world.db.table.cases
    modifies env`world, env.store
    ensures env.Valid() && env.world == Apply(old(env.world), CaseWrite(MarkReported(row.caseId, signature)))
    ensures env.world.jobs == old(env.world).jobs && env.world.windows == old(env.world).windows
  {
    env.RecordReported(row.caseId, signature);
  }

  method DeliverLeased(env: Deployment, row: Intent, enabled: bool, cardUpdate: bool, sequence: nat, x: Fate)
    returns (o: HandlerOutcome, ghost leasing: World, ghost look: Inspection, ghost sent: World)
    requires env.Valid() && Working(env.world, row) && NoWindows(env.world, row.token) && !row.Attends()
             && row.kind.ReportIntent?
    requires row.payload.reminderSince.None? ==> enabled && sequence == 0
    requires OnFile(env.world, row)
    modifies env`nextToken, env`world, env.store
    ensures env.Valid() && Working(env.world, row) && WindowsOver(env.world, row.token) && Vouched(env.world, row, o)
    ensures env.leads(old(env.world), leasing) && InInspection(env, leasing, look, sent) && env.leads(sent, env.world)
    ensures if !CanLease(leasing.db, leasing.now, row, sequence) || x.cancelled then o.Raised?
            else Concludes(row, look, sent, enabled, x, if cardUpdate then None else Some(sequence), o)
  {
    var u;
    u, leasing := LeaseFor(env, row, sequence);
    sent := env.world;
    look := Inspection(sent, sent, sent, sent);
    if u.None? {
      return Raised, leasing, look, sent;
    }
    o, look, sent := SendReport(env, row, u.value, enabled, cardUpdate, sequence, x);
  }

  method SendReport(env: Deployment, row: Intent, u: Token, enabled: bool, cardUpdate: bool, sequence: nat, x: Fate)
    returns (o: HandlerOutcome, ghost look: Inspection, ghost sent: World)
    requires env.Valid() && Leasing(env.world, row, u) && !row.Attends() && OnFile(env.world, row)
    requires env.world.windows[u].sequence == sequence && (row.payload.reminderSince.None? ==> enabled && sequence == 0)
    modifies env`nextToken, env`world, env.store
    ensures env.Valid() && Working(env.world, row) && WindowsOver(env.world, row.token) && Vouched(env.world, row, o)
    ensures InInspection(env, old(env.world), look, sent) && env.leads(sent, env.world)
    ensures if x.cancelled then o.Raised?
            else Concludes(row, look, sent, enabled, x, if cardUpdate then None else Some(sequence), o)
  {
    OpenWindow(env, row, u);
    o, look, sent := ReportWithinDeadline(env, row, u, enabled, cardUpdate, sequence, x);
    CloseWindow(env, row, u, o, x.released);
  }

  /** Under the lease the case is read first, and for a reminder outstanding attention,
      the last delivery and the clock; the check is recorded exactly when the report is
      fit to go out. */
  method LookAndCheck(env: Deployment, row: Intent, u: Token, enabled: bool, ghost sequence: nat)
    returns (early: Option<HandlerOutcome>, shown: AtomicCase, signature: Signature, ghost g: Inspection)
    requires env.Valid() && !row.Attends() && Sending(env.world, row, u, sequence, None) && OnFile(env.world, row)
    requires row.payload.reminderSince.None? ==> enabled && sequence == 0
    modifies env`nextToken, env`world, env.store
    ensures env.Valid() && InInspection(env, old(env.world), g, env.world)
    ensures Sending(env.world, row, u, sequence,
                    if early.Some? then None else Some(ReportCheck(row, shown, signature, env.world.now)))
    ensures match Reads(g, row, enabled)
            case Missing => false
            case Stale => early == Some(Quiet(ReminderNoLongerDue))
            case Fit(c, s) =>
              && early.None? && s == signature
              && c.generation == shown.generation && c.severity == shown.severity
  {
    ghost var cased := env.world;
    var c := env.store.cases[row.caseId];
    shown, signature := c, SignatureOf(row, c);
    ReadTheCase(env, row, u, sequence, c);
    if row.payload.reminderSince.None? {
      g := Inspection(cased, cased, cased, env.world);
      RecordReport(env, row, u, enabled, false, sequence, c);
      return None, shown, signature, g;
    }
    early, g := LookAgain(env, row, u, enabled, sequence, c, cased);
  }

  /** The rest of a reminder's look, after its case was read. */
  method LookAgain(env: Deployment, row: Intent, u: Token, enabled: bool, ghost sequence: nat, c: AtomicCase,
                   ghost cased: World)
    returns (early: Option<HandlerOutcome>, ghost g: Inspection)
    requires env.Valid() && !row.Attends() && Sending(env.world, row, u, sequence, None)
             && HasRead(env.world, u, c, None)
    requires row.payload.reminderSince.Some? && c.Monitored() && env.leads(cased, env.world)
    requires row.caseId in cased.db.table.cases && cased.db.table.cases[row.caseId] == c
    modifies env`nextToken, env`world, env.store
    ensures env.Valid() && g.cased == cased && InInspection(env, cased, g, env.world)
    ensures Sending(env.world, row, u, sequence,
                    if early.Some? then None else Some(ReportCheck(row, c, SignatureOf(row, c), env.world.now)))
    ensures early == if Reads(g, row, enabled).Fit? then None else Some(Quiet(ReminderNoLongerDue))
  {
    ghost var asked := env.world;
    var pending := env.store.HasPendingAttention(row.caseId);
    Wait(env, row, u, sequence, c, None);
    var previous;
    ghost var delivered;
    previous, delivered := ReadTheDelivery(env, row, u, sequence, c);
    g := Inspection(cased, asked, delivered, env.world);
    var reading := JudgeReport(row, c, pending, previous, env.store.now, env.reminderSeconds, enabled);
    if !reading.Fit? {
      return Some(Quiet(ReminderNoLongerDue)), g;
    }
    RecordReminder(env, row, u, enabled, pending, sequence, c, previous);
    early := None;
  }

  method RecordReport(env: Deployment, row: Intent, u: Token, enabled: bool, pending: bool, ghost sequence: nat,
                      c: AtomicCase)
    requires env.Valid() && !row.Attends() && c.Monitored() && Sending(env.world, row, u, sequence, None)
    requires HasRead(env.world, u, c, None) && row.payload.reminderSince.None? && enabled && sequence == 0
    modifies env`world
    ensures env.Valid() && env.leads(old(env.world), env.world) && env.world.now == old(env.world).now
    ensures Sending(env.world, row, u, sequence, Some(ReportCheck(row, c, SignatureOf(row, c), env.world.now)))
  {
    assert MayCheck(env.world, u) && ReportAllowed(env.world, u, enabled, pending);
    env.Step(CheckReport(u, enabled, pending));
  }

  method RecordReminder(env: Deployment, row: Intent, u: Token, enabled: bool, pending: bool, ghost sequence: nat,
                        c: AtomicCase, previous: Option<AttentionDelivery>)
    requires env.Valid() && !row.Attends() && c.Monitored() && Sending(env.world, row, u, sequence, None)
    requires HasRead(env.world, u, c, Some(previous)) && row.payload.reminderSince.Some?
    requires var seen := LegacyProjection(c, previous, pending);
             seen.Some? && StillDue(row, seen.value, env.world.now, env.world.reminderSeconds, enabled)
    modifies env`world
    ensures env.Valid() && env.leads(old(env.world), env.world) && env.world.now == old(env.world).now
    ensures Sending(env.world, row, u, sequence, Some(ReportCheck(row, c, SignatureOf(row, c), env.world.now)))
  {
    assert MayCheck(env.world, u) && ReportAllowed(env.world, u, enabled, pending);
    env.Step(CheckReport(u, enabled, pending));
  }

  function ReportCheck(row: Intent, shown: AtomicCase, signature: Signature, at: Instant): Check {
    Check(if row.payload.reminderSince.None? then New else Reminder,
          shown.generation, Firing, shown.severity, at, Some(signature))
  }

  method SendShown(env: Deployment, row: Intent, u: Token, cardUpdate: bool, sequence: nat, shown: AtomicCase,
                   signature: Signature, x: Fate)
    returns (o: HandlerOutcome, ghost sent: World)
    requires env.Valid() && !row.Attends()
    requires Sending(env.world, row, u, sequence, Some(ReportCheck(row, shown, signature, env.world.now)))
    modifies env`nextToken, env`world, env.store
    ensures env.Valid() && Concluded(env.world, row, u, o) && env.leads(old(env.world), sent) && sent == env.world
    ensures Answered(row, shown, signature, sent, x, if cardUpdate then None else Some(sequence), o)
  {
    env.Interfere({row.token, u});
    sent := env.world;
    match x.answer
    case SendRaised => o := Raised;
    case NotDelivered => o := Raised;
    case Withheld => o := Quiet(ReportVerbosity);
    case Superseded(_) => o := Quiet(Sent);
    case Delivered =>
      if cardUpdate {
        o := Quiet(Sent);
      } else {
        o := Announced(AttentionDelivery(row.caseId, shown.generation, Firing, shown.severity, env.store.now,
                                         sequence + 1),
                       if row.payload.reminderSince.None? then New else Reminder, u, Some(signature));
      }
  }

  method ReportWithinDeadline(env: Deployment, row: Intent, u: Token, enabled: bool, cardUpdate: bool,
                              sequence: nat, x: Fate)
    returns (o: HandlerOutcome, ghost look: Inspection, ghost sent: World)
    requires env.Valid() && !row.Attends() && Sending(env.world, row, u, sequence, None) && OnFile(env.world, row)
    requires row.payload.reminderSince.None? ==> enabled && sequence == 0
    modifies env`nextToken, env`world, env.store
    ensures env.Valid() && Concluded(env.world, row, u, o)
    ensures InInspection(env, old(env.world), look, sent) && env.leads(sent, env.world)
    ensures if x.cancelled then o.Raised?
            else Concludes(row, look, sent, enabled, x, if cardUpdate then None else Some(sequence), o)
  {
    env.Interfere({row.token, u});
    sent := env.world;
    look := Inspection(sent, sent, sent, sent);
    if x.cancelled {
      return Raised, look, sent;
    }
    o, look, sent := LookAndReport(env, row, u, enabled, cardUpdate, sequence, x);
  }

  method LookAndReport(env: Deployment, row: Intent, u: Token, enabled: bool, cardUpdate: bool, sequence: nat, x: Fate)
    returns (o: HandlerOutcome, ghost look: Inspection, ghost sent: World)
    requires env.Valid() && !row.Attends() && Sending(env.world, row, u, sequence, None) && OnFile(env.world, row)
    requires row.payload.reminderSince.None? ==> enabled && sequence == 0
    modifies env`nextToken, env`world, env.store
    ensures env.Valid() && Concluded(env.world, row, u, o)
    ensures InInspection(env, old(env.world), look, sent) && env.leads(sent, env.world)
    ensures Concludes(row, look, sent, enabled, x, if cardUpdate then None else Some(sequence), o)
  {
    var early, shown, signature;
    early, shown, signature, look := LookAndCheck(env, row, u, enabled, sequence);
    sent := env.world;
    if early.Some? {
      return early.value, look, sent;
    }
    o, sent := SendShown(env, row, u, cardUpdate, sequence, shown, signature, x);
  }
}
