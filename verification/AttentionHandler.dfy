/** Delivery of an attention intent (app/cases/attention_handler.py): look, lease,
    look again, send, and hand the result over for the commit. */
module AttentionHandlers {
  import opened Types
  import opened Attention
  import opened Outbox
  import opened Delivery
  import opened Deployments

  /** How a handler call ends: an exception, a result without an attention
      delivery, or one whose delivery is still to be committed. */
  datatype HandlerOutcome =
    | Raised
    | Quiet(outcome: Suppression)
    | Announced(delivery: AttentionDelivery, kind: Kind, lease: Token, report: Option<Signature>)

  /** What a transport answers. A superseded card tells when it was last verified. */
  datatype SendResult = SendRaised | NotDelivered | Withheld | Delivered | Superseded(verifiedAt: Instant)

  datatype Look = Unreadable | NotOwed | Owed

  /** The claim `row` is held by a handler that has not begun. */
  predicate Ready(w: World, row: Intent) {
    && row.token in w.jobs && row.token != NO_TOKEN && w.jobs[row.token].row == row
    && w.jobs[row.token].handler.Waiting?
    && w.now < w.jobs[row.token].stamped + CLAIM_SLACK
    && NoWindows(w, row.token)
  }

  predicate NoWindows(w: World, t: Token) {
    forall x :: x in w.windows ==> w.windows[x].claim != t
  }

  predicate Working(w: World, row: Intent) {
    && row.token in w.jobs && row.token != NO_TOKEN
    && w.jobs[row.token].row == row && w.jobs[row.token].handler.Running?
  }

  /** At most the window `u` belongs to the claim. */
  predicate OnlyWindow(w: World, t: Token, u: Token) {
    forall x :: x in w.windows && w.windows[x].claim == t ==> x == u
  }

  predicate WindowsOver(w: World, t: Token) {
    forall x :: x in w.windows && w.windows[x].claim == t ==> w.windows[x].sending.Over?
  }

  /** What a result promises about the handler's window. */
  predicate Vouched(w: World, row: Intent, o: HandlerOutcome) {
    match o
    case Raised => true
    case Quiet(outcome) => OutcomeFits(row, outcome)
    case Announced(d, kind, u, report) =>
      && u in w.windows && w.windows[u].claim == row.token && w.windows[u].caseId == row.caseId
      && w.windows[u].sending.Over? && w.windows[u].check.Some?
      && CommitDelivery(w.windows[u], d.deliveredAt) == d
      && w.windows[u].check.value.kind == kind && w.windows[u].check.value.report == report
      && d.deliveredAt <= w.now && (kind.New? || w.windows[u].check.value.at <= d.deliveredAt)
  }

  predicate Handled(w: World, row: Intent, o: HandlerOutcome) {
    row.token in w.jobs && w.jobs[row.token].row == row && w.jobs[row.token].handler.Over? && Vouched(w, row, o)
  }

  /** What a handler call does not decide: whether its deadline cancels it, what the
      transport answers, and whether giving the lease back succeeds. */
  datatype Fate = Fate(cancelled: bool, answer: SendResult, released: bool)

  /** Only a new card can be superseded, and only by one verified before now. */
  function Heard(answer: SendResult, kind: Kind, now: Instant): SendResult {
    if answer.Superseded? && (!kind.New? || answer.verifiedAt > now) then NotDelivered else answer
  }

  /** The states in which a look read the case, the last delivery and the clock. */
  datatype Glance = Glance(cased: World, delivered: World, judged: World)

  ghost predicate InGlance(env: Deployment, w: World, g: Glance, u: World) {
    env.leads(w, g.cased) && env.leads(g.cased, g.delivered) && env.leads(g.delivered, g.judged)
    && env.leads(g.judged, u)
  }

  /** What a look sees. */
  function Sight(g: Glance, row: Intent): Look
    requires row.Attends()
  {
    if row.caseId !in g.cased.db.table.cases then Unreadable
    else
      var c := g.cased.db.table.cases[row.caseId];
      var verdict := AttentionDue(c, Previous(g.delivered.db, row.caseId), g.judged.now, g.judged.reminderSeconds);
      if !c.Monitored() then NotOwed
      else if verdict.WrongCase? then Unreadable
      else if verdict == Due(row.payload.request.value) then Owed
      else NotOwed
  }

  /** How a look ends the call. */
  function Early(look: Look): Option<HandlerOutcome> {
    match look
    case Unreadable => Some(Raised)
    case NotOwed => Some(Quiet(NoLongerDue))
    case Owed => None
  }

  /** The states a call passed through: its first look, the claim of the lease, the
      look under the lease, and the answer of the transport. */
  datatype Attempt = Attempt(first: Glance, leasing: World, second: Glance, sent: World)

  ghost predicate InAttempt(env: Deployment, w: World, a: Attempt, u: World) {
    InGlance(env, w, a.first, a.leasing) && InGlance(env, a.leasing, a.second, a.sent) && env.leads(a.sent, u)
  }

  /** The outcome of sending a request that is owed. */
  predicate SentOwed(row: Intent, sent: World, x: Fate, o: HandlerOutcome)
    requires row.Attends()
  {
    var r := row.payload.request.value;
    match Heard(x.answer, r.kind, sent.now)
    case Withheld => o == Quiet(AttentionVerbosity)
    case Delivered => Announces(row, sent.now, o)
    case Superseded(verifiedAt) => Announces(row, verifiedAt, o)
    case _ => o.Raised?
  }

  predicate Announces(row: Intent, at: Instant, o: HandlerOutcome)
    requires row.Attends()
  {
    var r := row.payload.request.value;
    && o.Announced? && o.kind == r.kind && o.report.None?
    && o.delivery == AttentionDelivery(row.caseId, r.generation, r.phase, r.severity, at, r.expectedSequence + 1)
  }

  /** The outcome under the lease, by the look and the answer there. */
  predicate UnderLease(row: Intent, second: Glance, sent: World, x: Fate, o: HandlerOutcome)
    requires row.Attends()
  {
    if x.cancelled then o.Raised?
    else if Sight(second, row).Owed? then SentOwed(row, sent, x, o)
    else Early(Sight(second, row)) == Some(o)
  }

  /** How the states passed and the fate of a call determine its outcome: the request
      is announced exactly when it is seen owed twice, the lease is granted in between,
      and the transport delivers in time. */
  predicate Attempted(row: Intent, a: Attempt, x: Fate, o: HandlerOutcome)
    requires row.Attends()
  {
    if row.payload.request.value.key != row.key then o.Raised?
    else if !Sight(a.first, row).Owed? then Early(Sight(a.first, row)) == Some(o)
    else if !CanLease(a.leasing.db, a.leasing.now, row, row.payload.request.value.expectedSequence) then o.Raised?
    else UnderLease(row, a.second, a.sent, x, o)
  }

  /** The request is what the policy owed a monitored case, by what a look read. */
  predicate SeenOwed(g: Glance, row: Intent) {
    && row.Attends() && row.caseId in g.cased.db.table.cases
    && var c := g.cased.db.table.cases[row.caseId];
       && (c.source == Some("alertmanager") || c.source == Some("icinga2"))
       && AttentionDue(c, Previous(g.delivered.db, row.caseId), g.judged.now, g.judged.reminderSeconds)
          == Due(row.payload.request.value)
  }

  /** Both looks saw the request owed, the lease was granted between them, and no deadline
      passed. */
  predicate ComesToSend(row: Intent, a: Attempt, x: Fate) {
    && row.Attends() && row.payload.request.value.key == row.key
    && SeenOwed(a.first, row) && SeenOwed(a.second, row) && !x.cancelled
    && CanLease(a.leasing.db, a.leasing.now, row, row.payload.request.value.expectedSequence)
  }

  /** A request is announced exactly when it comes to be sent and the transport delivers
      it, or finds a new one superseded by a card verified by then; the delivery tells the
      request's own fields and the time of the card or of the answer. */
  lemma AnnouncedIff(row: Intent, a: Attempt, x: Fate, o: HandlerOutcome)
    requires row.Attends() && Attempted(row, a, x, o)
    ensures o.Announced? <==>
              && ComesToSend(row, a, x)
              && (x.answer == Delivered
                  || (x.answer.Superseded? && row.payload.request.value.kind == New
                      && x.answer.verifiedAt <= a.sent.now))
    ensures o == Quiet(AttentionVerbosity) <==> ComesToSend(row, a, x) && x.answer == Withheld
    ensures o.Announced? ==>
              var r := row.payload.request.value;
              && o.kind == r.kind && o.report == None
              && o.delivery == AttentionDelivery(row.caseId, r.generation, r.phase, r.severity,
                                                 if x.answer.Superseded? then x.answer.verifiedAt else a.sent.now,
                                                 r.expectedSequence + 1)
    ensures o.Quiet? ==> o.outcome == AttentionVerbosity || o.outcome == NoLongerDue
  {
  }

  /** A call ends as no longer due exactly when a look, the first or the one under the
      lease, could read the case and its delivery and saw anything else owed. */
  lemma NoLongerDueIff(row: Intent, a: Attempt, x: Fate, o: HandlerOutcome)
    requires row.Attends() && Attempted(row, a, x, o)
    requires forall g :: g in {a.first, a.second} && row.caseId in g.delivered.db.attention ==>
               g.delivered.db.attention[row.caseId].caseId == row.caseId
    requires forall g :: g in {a.first, a.second} && row.caseId in g.cased.db.table.cases ==>
               g.cased.db.table.cases[row.caseId].caseId == row.caseId
    ensures o == Quiet(NoLongerDue) <==>
              && row.payload.request.value.key == row.key && row.caseId in a.first.cased.db.table.cases
              && (!SeenOwed(a.first, row)
                  || (&& CanLease(a.leasing.db, a.leasing.now, row, row.payload.request.value.expectedSequence)
                      && !x.cancelled && row.caseId in a.second.cased.db.table.cases && !SeenOwed(a.second, row)))
  {
  }

  /** Whether, by what was read of the case and its last delivery, exactly this
      request is owed at an instant. */
  method Judge(c: AtomicCase, previous: Option<AttentionDelivery>, now: Instant, reminderSeconds: int,
               r: AttentionRequest)
    returns (look: Look)
    ensures look.Owed? <==> AttentionDue(c, previous, now, reminderSeconds) == Due(r)
    ensures look.Unreadable? <==> AttentionDue(c, previous, now, reminderSeconds).WrongCase?
  {
    var current := AttentionDue(c, previous, now, reminderSeconds);
    if current.WrongCase? {
      return Unreadable;
    }
    look := if current == Due(r) then Owed else NotOwed;
  }

  method HandleAttention(env: Deployment, row: Intent, x: Fate) returns (o: HandlerOutcome, ghost a: Attempt)
    requires env.Valid() && Ready(env.world, row) && row.Attends() && row.kind.ReportIntent?
    modifies env`nextToken, env`world, env.store
    ensures env.Valid() && Handled(env.world, row, o)
    ensures InAttempt(env, old(env.world), a, env.world) && Attempted(row, a, x, o)
  {
    env.Step(Start(row.token));
    o, a := AttemptAttention(env, row, x);
    env.Step(Stop(row.token));
  }

  /** The look before the lease. The case, the last delivery and the clock are read
      one after another. */
  method FirstLook(env: Deployment, row: Intent) returns (early: Option<HandlerOutcome>, ghost g: Glance)
    requires env.Valid() && row.Attends() && Working(env.world, row) && NoWindows(env.world, row.token)
    modifies env`nextToken, env`world, env.store
    ensures env.Valid() && Working(env.world, row) && NoWindows(env.world, row.token)
    ensures InGlance(env, old(env.world), g, env.world) && early == Early(Sight(g, row))
  {
    ghost var cased := env.world;
    g := Glance(cased, cased, cased);
    if row.caseId !in env.store.cases {
      return Some(Raised), g;
    }
    var c := env.store.cases[row.caseId];
    if !c.Monitored() {
      return Some(Quiet(NoLongerDue)), g;
    }
    env.Interfere({row.token});
    var previous := env.store.GetAttention(row.caseId);
    ghost var delivered := env.world;
    env.Interfere({row.token});
    g := Glance(cased, delivered, env.world);
    var look := Judge(c, previous, env.store.now, env.reminderSeconds, row.payload.request.value);
    match look
    case Unreadable => early := Some(Raised);
    case NotOwed => early := Some(Quiet(NoLongerDue));
    case Owed => early := None;
  }

  /** A window the claim just leased. */
  predicate Leasing(w: World, row: Intent, u: Token) {
    && Working(w, row) && OnlyWindow(w, row.token, u) && u in w.windows
    && w.windows[u] == Window(row.token, row.caseId, w.windows[u].sequence, w.now, Waiting, None, None, None)
  }

  predicate Sending(w: World, row: Intent, u: Token, sequence: nat, check: Option<Check>) {
    && Working(w, row) && OnlyWindow(w, row.token, u) && u in w.windows
    && w.windows[u].claim == row.token && w.windows[u].caseId == row.caseId && w.windows[u].sequence == sequence
    && w.windows[u].sending.Running? && w.windows[u].check == check
    && (check.Some? ==> check.value.at <= w.now)
  }

  method LeaseFor(env: Deployment, row: Intent, sequence: nat) returns (u: Option<Token>, ghost leasing: World)
    requires env.Valid() && Working(env.world, row) && NoWindows(env.world, row.token) && row.kind.ReportIntent?
    modifies env`nextToken, env`world, env.store
    ensures env.Valid() && env.leads(old(env.world), leasing) && env.leads(leasing, env.world)
    ensures u.Some? <==> CanLease(leasing.db, leasing.now, row, sequence)
    ensures if u.Some? then Leasing(env.world, row, u.value) && env.world.windows[u.value].sequence == sequence
            else Working(env.world, row) && NoWindows(env.world, row.token)
    ensures SourcesKept(old(env.world).db.table, env.world.db.table)
  {
    env.Interfere({row.token});
    leasing := env.world;
    var drawn := env.Draw();
    var lease := env.Acquire(row, sequence, drawn);
    u := if lease.Leased? then Some(drawn) else None;
  }

  method OpenWindow(env: Deployment, row: Intent, u: Token)
    requires env.Valid() && Leasing(env.world, row, u)
    modifies env`nextToken, env`world, env.store
    ensures env.Valid() && Sending(env.world, row, u, old(env.world.windows[u].sequence), None)
    ensures env.leads(old(env.world), env.world) && SourcesKept(old(env.world).db.table, env.world.db.table)
  {
    env.InterfereBriefly({row.token, u}, env.world.now + LEASE_SLACK);
    env.Step(BeginSend(u));
  }

  /** What a handler has to show when its window ends. */
  predicate Concluded(w: World, row: Intent, u: Token, o: HandlerOutcome) {
    && Working(w, row) && OnlyWindow(w, row.token, u) && u in w.windows
    && w.windows[u].claim == row.token && w.windows[u].caseId == row.caseId
    && (o.Quiet? ==> OutcomeFits(row, o.outcome))
    && (o.Announced? ==> o.lease == u && Reported(w, u, o))
  }

  /** The window ends. The lease is kept for the commit of a delivery; otherwise it is
      given back, and if that fails it runs out. */
  method CloseWindow(env: Deployment, row: Intent, u: Token, o: HandlerOutcome, released: bool)
    requires env.Valid() && Concluded(env.world, row, u, o)
    modifies env`world, env.store
    ensures env.Valid() && Working(env.world, row) && WindowsOver(env.world, row.token) && Vouched(env.world, row, o)
    ensures env.leads(old(env.world), env.world)
    ensures env.world.db == if o.Announced? || !released then old(env.world).db
            else ReleaseLease(old(env.world).db, row.caseId, u)
  {
    env.Step(EndSend(u));
    if !o.Announced? && released {
      env.ReleaseLease(row.caseId, u);
    }
  }

  method AttemptAttention(env: Deployment, row: Intent, x: Fate) returns (o: HandlerOutcome, ghost a: Attempt)
    requires env.Valid() && Working(env.world, row) && NoWindows(env.world, row.token) && row.Attends()
             && row.kind.ReportIntent?
    modifies env`nextToken, env`world, env.store
    ensures env.Valid() && Working(env.world, row) && WindowsOver(env.world, row.token) && Vouched(env.world, row, o)
    ensures InAttempt(env, old(env.world), a, env.world) && Attempted(row, a, x, o)
  {
    env.Interfere({row.token});
    var r := row.payload.request.value;
    ghost var here := Glance(env.world, env.world, env.world);
    a := Attempt(here, env.world, here, env.world);
    if r.key != row.key {
      return Raised, a;
    }
    o, a := LookAndLease(env, row, x);
  }

  method LookAndLease(env: Deployment, row: Intent, x: Fate) returns (o: HandlerOutcome, ghost a: Attempt)
    requires env.Valid() && Working(env.world, row) && NoWindows(env.world, row.token) && row.Attends()
             && row.kind.ReportIntent?
    requires row.payload.request.value.key == row.key
    modifies env`nextToken, env`world, env.store
    ensures env.Valid() && Working(env.world, row) && WindowsOver(env.world, row.token) && Vouched(env.world, row, o)
    ensures InAttempt(env, old(env.world), a, env.world) && Attempted(row, a, x, o)
  {
    var early;
    ghost var first;
    early, first := FirstLook(env, row);
    ghost var here := Glance(env.world, env.world, env.world);
    a := Attempt(first, env.world, here, env.world);
    if early.Some? {
      return early.value, a;
    }
    o, a := LeaseAndSend(env, row, x, first);
  }

  method LeaseAndSend(env: Deployment, row: Intent, x: Fate, ghost first: Glance)
    returns (o: HandlerOutcome, ghost a: Attempt)
    requires env.Valid() && Working(env.world, row) && NoWindows(env.world, row.token) && row.Attends()
             && row.kind.ReportIntent?
    modifies env`nextToken, env`world, env.store
    ensures env.Valid() && Working(env.world, row) && WindowsOver(env.world, row.token) && Vouched(env.world, row, o)
    ensures a.first == first && env.leads(old(env.world), a.leasing)
    ensures InGlance(env, a.leasing, a.second, a.sent) && env.leads(a.sent, env.world)
    ensures if CanLease(a.leasing.db, a.leasing.now, row, row.payload.request.value.expectedSequence)
            then UnderLease(row, a.second, a.sent, x, o)
            else o.Raised?
  {
    var u;
    ghost var leasing;
    u, leasing := LeaseFor(env, row, row.payload.request.value.expectedSequence);
    ghost var here := Glance(env.world, env.world, env.world);
    a := Attempt(first, leasing, here, env.world);
    if u.None? {
      return Raised, a;
    }
    ghost var second, sent;
    o, second, sent := SendAttention(env, row, u.value, x);
    a := Attempt(first, leasing, second, sent);
  }

  method SendAttention(env: Deployment, row: Intent, u: Token, x: Fate)
    returns (o: HandlerOutcome, ghost second: Glance, ghost sent: World)
    requires env.Valid() && Leasing(env.world, row, u) && row.Attends()
    requires env.world.windows[u].sequence == row.payload.request.value.expectedSequence
    modifies env`nextToken, env`world, env.store
    ensures env.Valid() && Working(env.world, row) && WindowsOver(env.world, row.token) && Vouched(env.world, row, o)
    ensures InGlance(env, old(env.world), second, sent) && env.leads(sent, env.world)
    ensures UnderLease(row, second, sent, x, o)
  {
    OpenWindow(env, row, u);
    o, second, sent := WithinDeadline(env, row, u, x);
    CloseWindow(env, row, u, o, x.released);
  }

  function CheckOf(r: AttentionRequest, at: Instant): Check {
    Check(r.kind, r.generation, r.phase, r.severity, at, None)
  }

  /** The window has read the case. */
  predicate HasRead(w: World, u: Token, c: AtomicCase, last: Option<Option<AttentionDelivery>>) {
    u in w.windows && w.windows[u].shown == Some(c) && w.windows[u].last == last
  }

  /** Inside the window: the case, the last delivery and the clock are read one after
      another, and the check is recorded exactly when the request is still owed. */
  method SecondLook(env: Deployment, row: Intent, u: Token) returns (early: Option<HandlerOutcome>, ghost g: Glance)
    requires env.Valid() && row.Attends()
    requires Sending(env.world, row, u, row.payload.request.value.expectedSequence, None)
    modifies env`nextToken, env`world, env.store
    ensures env.Valid() && InGlance(env, old(env.world), g, env.world) && early == Early(Sight(g, row))
    ensures Sending(env.world, row, u, row.payload.request.value.expectedSequence,
                    if early.Some? then None else Some(CheckOf(row.payload.request.value, env.world.now)))
  {
    ghost var cased := env.world;
    g := Glance(cased, cased, cased);
    if row.caseId !in env.store.cases {
      return Some(Raised), g;
    }
    var c := env.store.cases[row.caseId];
    ReadTheCase(env, row, u, row.payload.request.value.expectedSequence, c);
    if !c.Monitored() {
      g := Glance(cased, cased, env.world);
      return Some(Quiet(NoLongerDue)), g;
    }
    var previous;
    ghost var delivered;
    previous, delivered := ReadTheDelivery(env, row, u, row.payload.request.value.expectedSequence, c);
    g := Glance(cased, delivered, env.world);
    var look := Judge(c, previous, env.store.now, env.reminderSeconds, row.payload.request.value);
    match look
    case Unreadable => early := Some(Raised);
    case NotOwed => early := Some(Quiet(NoLongerDue));
    case Owed =>
      early := None;
      RecordOwed(env, row, u, c, previous);
  }

  method RecordOwed(env: Deployment, row: Intent, u: Token, c: AtomicCase, previous: Option<AttentionDelivery>)
    requires env.Valid() && row.Attends() && c.Monitored()
    requires Sending(env.world, row, u, row.payload.request.value.expectedSequence, None)
    requires HasRead(env.world, u, c, Some(previous))
    requires AttentionDue(c, previous, env.world.now, env.world.reminderSeconds) == Due(row.payload.request.value)
    modifies env`world
    ensures env.Valid() && env.leads(old(env.world), env.world) && env.world.now == old(env.world).now
    ensures Sending(env.world, row, u, row.payload.request.value.expectedSequence,
                    Some(CheckOf(row.payload.request.value, env.world.now)))
  {
    env.Step(CheckAttention(u));
  }

  method Wait(env: Deployment, row: Intent, u: Token, ghost sequence: nat, ghost c: AtomicCase,
              ghost last: Option<Option<AttentionDelivery>>)
    requires env.Valid() && Sending(env.world, row, u, sequence, None) && HasRead(env.world, u, c, last)
    modifies env`nextToken, env`world, env.store
    ensures env.Valid() && Sending(env.world, row, u, sequence, None) && HasRead(env.world, u, c, last)
    ensures env.leads(old(env.world), env.world)
  {
    env.Interfere({row.token, u});
  }

  method ReadTheCase(env: Deployment, row: Intent, u: Token, ghost sequence: nat, c: AtomicCase)
    requires env.Valid() && Sending(env.world, row, u, sequence, None)
    requires row.caseId in env.world.db.table.cases && env.world.db.table.cases[row.caseId] == c
    modifies env`nextToken, env`world, env.store
    ensures env.Valid() && Sending(env.world, row, u, sequence, None) && HasRead(env.world, u, c, None)
    ensures env.leads(old(env.world), env.world)
  {
    env.Step(ReadCase(u));
    Wait(env, row, u, sequence, c, None);
  }

  method ReadTheDelivery(env: Deployment, row: Intent, u: Token, ghost sequence: nat, c: AtomicCase)
    returns (previous: Option<AttentionDelivery>, ghost delivered: World)
    requires env.Valid() && Sending(env.world, row, u, sequence, None) && HasRead(env.world, u, c, None)
    modifies env`nextToken, env`world, env.store
    ensures env.Valid() && Sending(env.world, row, u, sequence, None) && HasRead(env.world, u, c, Some(previous))
    ensures delivered == old(env.world) && previous == Previous(delivered.db, row.caseId)
    ensures env.leads(delivered, env.world)
  {
    delivered := env.world;
    previous := env.store.GetAttention(row.caseId);
    env.Step(ReadAttention(u));
    Wait(env, row, u, sequence, c, Some(previous));
  }

  method SendOwed(env: Deployment, row: Intent, u: Token, x: Fate) returns (o: HandlerOutcome, ghost sent: World)
    requires env.Valid() && row.Attends()
    requires var r := row.payload.request.value;
             Sending(env.world, row, u, r.expectedSequence, Some(CheckOf(r, env.world.now)))
    modifies env`nextToken, env`world, env.store
    ensures env.Valid() && Concluded(env.world, row, u, o)
    ensures env.leads(old(env.world), sent) && sent == env.world && SentOwed(row, sent, x, o)
  {
    var r := row.payload.request.value;
    env.Interfere({row.token, u});
    sent := env.world;
    var answer := Heard(x.answer, r.kind, env.store.now);
    if answer.Withheld? {
      return Quiet(AttentionVerbosity), sent;
    }
    if !answer.Delivered? && !answer.Superseded? {
      return Raised, sent;
    }
    var deliveredAt := if answer.Superseded? then answer.verifiedAt else env.store.now;
    o := Announced(AttentionDelivery(row.caseId, r.generation, r.phase, r.severity, deliveredAt,
                                     r.expectedSequence + 1),
                   r.kind, u, None);
  }

  /** The part of the delivery under the send deadline. */
  method WithinDeadline(env: Deployment, row: Intent, u: Token, x: Fate)
    returns (o: HandlerOutcome, ghost second: Glance, ghost sent: World)
    requires env.Valid() && row.Attends()
    requires Sending(env.world, row, u, row.payload.request.value.expectedSequence, None)
    modifies env`nextToken, env`world, env.store
    ensures env.Valid() && Concluded(env.world, row, u, o)
    ensures InGlance(env, old(env.world), second, sent) && env.leads(sent, env.world)
    ensures UnderLease(row, second, sent, x, o)
  {
    env.Interfere({row.token, u});
    sent := env.world;
    second := Glance(sent, sent, sent);
    if x.cancelled {
      return Raised, second, sent;
    }
    o, second, sent := LookAndSend(env, row, u, x);
  }

  method LookAndSend(env: Deployment, row: Intent, u: Token, x: Fate)
    returns (o: HandlerOutcome, ghost second: Glance, ghost sent: World)
    requires env.Valid() && row.Attends() && !x.cancelled
    requires Sending(env.world, row, u, row.payload.request.value.expectedSequence, None)
    modifies env`nextToken, env`world, env.store
    ensures env.Valid() && Concluded(env.world, row, u, o)
    ensures InGlance(env, old(env.world), second, sent) && env.leads(sent, env.world)
    ensures UnderLease(row, second, sent, x, o)
  {
    var early;
    early, second := SecondLook(env, row, u);
    sent := env.world;
    if early.Some? {
      return early.value, second, sent;
    }
    o, sent := SendOwed(env, row, u, x);
  }

  predicate Reported(w: World, u: Token, o: HandlerOutcome)
    requires o.Announced? && u in w.windows
  {
    && w.windows[u].check.Some?
    && CommitDelivery(w.windows[u], o.delivery.deliveredAt) == o.delivery
    && w.windows[u].check.value.kind == o.kind && w.windows[u].check.value.report == o.report
    && o.delivery.deliveredAt <= w.now && (o.kind.New? || w.windows[u].check.value.at <= o.delivery.deliveredAt)
  }
}
