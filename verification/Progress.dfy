/** The protocol never gets stuck: from every reachable state, whatever workers crashed,
    claims lapsed and rows were suppressed, a request that is owed can still be
    delivered, and one worker is enough. */
module Progress {
  import opened Types
  import opened Attention
  import opened Outbox
  import opened Delivery
  import opened Fencing
  import opened CommitLog
  import opened Rate
  import opened Recurrence
  import opened TokenRuns
  import opened Scheduler

  // ----- quiet: no handler and no send is running

  /** The same state but for how far handlers and sends got. */
  predicate SameStore(w: World, u: World) {
    && u.db == w.db && u.now == w.now && u.reminderSeconds == w.reminderSeconds
    && u.used == w.used && u.seen == w.seen && u.log == w.log
    && u.jobs.Keys == w.jobs.Keys && u.windows.Keys == w.windows.Keys
    && (forall t :: t in w.jobs ==> u.jobs[t].row == w.jobs[t].row)
    && (forall x :: x in w.windows ==> u.windows[x].claim == w.windows[x].claim)
  }

  predicate SendsOver(w: World, rest: set<Token>) {
    forall x :: x in w.windows && x !in rest ==> w.windows[x].sending.Over?
  }

  predicate HandlersOver(w: World, rest: set<Token>) {
    forall t :: t in w.jobs && t !in rest ==> !w.jobs[t].handler.Running?
  }

  /** Crashes end every send that is still running. */
  lemma {:induction false} EndSends(w: World, rest: set<Token>) returns (events: seq<Event>)
    requires rest <= w.windows.Keys && SendsOver(w, rest)
    ensures SameStore(w, Run(w, events)) && SendsOver(Run(w, events), {})
    decreases rest
  {
    if rest == {} {
      events := [];
    } else {
      var x :| x in rest;
      var e := Handler(EndSend(x));
      var more := EndSends(Apply(w, e), rest - {x});
      RunsJoin(w, [e], more);
      var one := One(w, e);
      events := [e] + more;
    }
  }

  lemma StopOne(w: World, t: Token, rest: set<Token>)
    requires t in rest && rest <= w.jobs.Keys && HandlersOver(w, rest) && SendsOver(w, {})
    ensures var u := Apply(w, Handler(Stop(t)));
            SameStore(w, u) && HandlersOver(u, rest - {t}) && SendsOver(u, {})
  {
  }

  /** And then every handler. */
  lemma {:induction false} StopHandlers(w: World, rest: set<Token>) returns (events: seq<Event>)
    requires rest <= w.jobs.Keys && HandlersOver(w, rest) && SendsOver(w, {})
    ensures SameStore(w, Run(w, events)) && HandlersOver(Run(w, events), {}) && SendsOver(Run(w, events), {})
    decreases rest
  {
    if rest == {} {
      events := [];
    } else {
      var t :| t in rest;
      var e := Handler(Stop(t));
      StopOne(w, t, rest);
      var more := StopHandlers(Apply(w, e), rest - {t});
      RunsJoin(w, [e], more);
      var one := One(w, e);
      events := [e] + more;
    }
  }

  /** Nobody is at work, and the clock has come to an instant. */
  lemma Quiet(w: World, at: Instant) returns (events: seq<Event>)
    requires w.now <= at
    ensures var u := Run(w, events);
            && u.db == w.db && u.now == at && u.reminderSeconds == w.reminderSeconds && u.used == w.used
            && u.seen == w.seen
            && u.log == w.log && SendsOver(u, {}) && HandlersOver(u, {})
  {
    var a := EndSends(w, w.windows.Keys);
    var x := Run(w, a);
    var b := StopHandlers(x, x.jobs.Keys);
    var y := Run(x, b);
    var tick := Tick(at - w.now);
    RunsJoin(w, a, b);
    RunsJoin(w, a + b, [tick]);
    var one := One(y, tick);
    events := a + b + [tick];
  }

  // ----- what is owed stays owed

  lemma DueLater(c: AtomicCase, previous: Option<AttentionDelivery>, now: Instant, later: Instant, reminderSeconds: int)
    requires now <= later && AttentionDue(c, previous, now, reminderSeconds).Due?
    ensures AttentionDue(c, previous, later, reminderSeconds) == AttentionDue(c, previous, now, reminderSeconds)
  {
  }

  // ----- names that are free

  lemma {:induction false} FreshToken(used: set<Token>) returns (t: Token)
    ensures t > NO_TOKEN && forall x :: x in used ==> x < t
    decreases used
  {
    if used == {} {
      t := 1;
    } else {
      var x :| x in used;
      var s := FreshToken(used - {x});
      assert forall y :: y in used ==> y == x || y in used - {x};
      t := if x < s then s else x + 1;
    }
  }

  lemma {:induction false} LongerThanAll(ids: set<string>) returns (n: nat)
    ensures forall id :: id in ids ==> |id| < n
    decreases ids
  {
    if ids == {} {
      n := 0;
    } else {
      var x :| x in ids;
      var m := LongerThanAll(ids - {x});
      assert forall y :: y in ids ==> y == x || y in ids - {x};
      n := if |x| < m then m else |x| + 1;
    }
  }

  lemma FreshId(ids: set<string>) returns (id: string)
    ensures id !in ids
  {
    var n := LongerThanAll(ids);
    id := seq(n, _ => 'x');
  }

  // ----- the row of a request

  /** The row on the key of a request waits to be claimed. */
  predicate Waits(w: World, id: string, r: AttentionRequest) {
    && r.key in w.db.keys && w.db.keys[r.key] in w.db.outbox
    && var v := w.db.outbox[w.db.keys[r.key]];
       && v.id == w.db.keys[r.key] && v in w.seen && (v.status.Pending? || v.status.Failed?)
       && v.kind.ReportIntent? && v.caseId == id && v.payload.request == Some(r)
  }

  ghost predicate Sound(w: World) {
    Paced(w) && DeliveredPast(w) && Indexed(w.db)
  }

  lemma SoundStep(w: World, e: Event)
    requires Sound(w)
    ensures Sound(Apply(w, e))
  {
    PacedStep(w, e);
    DeliveredPastStep(w, e);
    IndexedStep(w, e);
  }

  lemma {:induction false} SoundAlways(w: World, events: seq<Event>)
    requires Sound(w)
    ensures Sound(Run(w, events))
  {
    if events != [] {
      SoundAlways(w, events[..|events| - 1]);
      SoundStep(Run(w, events[..|events| - 1]), events[|events| - 1]);
    }
  }

  /** The row on the key of a request whose turn has not passed carries that request. */
  lemma KeyCarries(w: World, id: string, r: AttentionRequest) returns (v: Intent)
    requires Sound(w) && r.key == RequestKeyOf(id, r) && Sequence(w.db, id) <= r.expectedSequence && r.key in w.db.keys
    ensures v.id == w.db.keys[r.key] && v.id in w.db.outbox && v == w.db.outbox[v.id] && v in w.seen
    ensures v.kind.ReportIntent? && v.caseId == id && v.payload.request == Some(r) && v.payload.delivered.None?
    ensures !v.status.Abandoned?
    ensures v.status.Succeeded? ==> v.payload.suppressed.NoLongerDue? || v.payload.suppressed.AttentionVerbosity?
  {
    TurnNeverBlocked(w, id, r);
    v := w.db.outbox[w.db.keys[r.key]];
    assert v in w.seen && Sane(v);
    var s := v.payload.request.value;
    RequestKeyInjective(id, r.generation, r.phase, r.severity, r.expectedSequence, r.kind,
                        id, s.generation, s.phase, s.severity, s.expectedSequence, s.kind);
  }

  /** The same but for outbox rows. */
  predicate OnlyRows(w: World, u: World) {
    && u.now == w.now && u.reminderSeconds == w.reminderSeconds && u.used == w.used && u.log == w.log
    && u.jobs == w.jobs && u.windows == w.windows
    && u.db.table == w.db.table && u.db.attention == w.db.attention && u.db.leases == w.db.leases
  }

  lemma FileRow(w: World, id: string, r: AttentionRequest) returns (e: Event)
    requires r.key == RequestKeyOf(id, r) && r.key !in w.db.keys
    ensures OnlyRows(w, Apply(w, e)) && Waits(Apply(w, e), id, r)
  {
    var unused := FreshId(w.db.outbox.Keys);
    var i := AttentionIntent(unused, id, r, w.now);
    AttentionKeyed(id, r);
    assert NewIntent(i);
    e := OutboxWrite(EnqueueIntent(i));
    assert OutboxRow(w, e.outboxOp) == Some(i);
  }

  /** A row in seen and in place, as `KeyCarries` finds it. */
  predicate Stands(w: World, v: Intent, id: string, r: AttentionRequest) {
    && r.key in w.db.keys && v.id == w.db.keys[r.key] && v.id in w.db.outbox && v == w.db.outbox[v.id] && v in w.seen
    && v.kind.ReportIntent? && v.caseId == id && v.payload.request == Some(r)
  }

  lemma RecoverRow(w: World, v: Intent, id: string, r: AttentionRequest)
    requires Stands(w, v, id, r) && v.status.InProgress? && ClaimExpired(v, w.now)
    ensures var u := Apply(w, OutboxWrite(Recover(v, w.now))); OnlyRows(w, u) && Waits(u, id, r)
  {
    assert OutboxRow(w, Recover(v, w.now)) == Some(v.(status := Pending, nextAttemptAt := Some(w.now)));
  }

  lemma ReopenTheRow(w: World, v: Intent, id: string, r: AttentionRequest)
    requires Stands(w, v, id, r) && v.status.Succeeded?
    requires v.payload.suppressed.NoLongerDue? || v.payload.suppressed.AttentionVerbosity?
    ensures var u := Apply(w, OutboxWrite(ReopenAttention(v))); OnlyRows(w, u) && Waits(u, id, r)
  {
    assert OutboxRow(w, ReopenAttention(v)) == Some(Reopened(v, w.now));
  }

  /** One step, or none, makes the row wait: it is enqueued, taken back from a claim that
      lapsed, or reopened. */
  lemma MakeWait(w: World, id: string, r: AttentionRequest) returns (events: seq<Event>)
    requires Sound(w) && r.key == RequestKeyOf(id, r) && Sequence(w.db, id) <= r.expectedSequence
    requires r.key in w.db.keys && w.db.outbox[w.db.keys[r.key]].status.InProgress? ==>
               ClaimExpired(w.db.outbox[w.db.keys[r.key]], w.now)
    ensures OnlyRows(w, Run(w, events)) && Waits(Run(w, events), id, r)
  {
    if r.key !in w.db.keys {
      var e := FileRow(w, id, r);
      events := One(w, e);
    } else {
      var v := KeyCarries(w, id, r);
      if v.status.InProgress? {
        RecoverRow(w, v, id, r);
        events := One(w, OutboxWrite(Recover(v, w.now)));
      } else if v.status.Succeeded? {
        ReopenTheRow(w, v, id, r);
        events := One(w, OutboxWrite(ReopenAttention(v)));
      } else {
        events := [];
      }
    }
  }

  // ----- one worker, from claim to commit

  /** The row of a request is claimed under `t` and its handler runs. */
  lemma ClaimAndStart(w: World, v: Intent, t: Token)
    requires v in w.seen && v.id in w.db.outbox && v == w.db.outbox[v.id] && (v.status.Pending? || v.status.Failed?)
    requires t !in w.used && t != NO_TOKEN && t !in w.jobs
    ensures var u, row := Run(w, [OutboxWrite(Claim(v, t, w.now)), Handler(Start(t))]), ClaimedRow(v, t, w.now);
            && u.db == Write(w.db, row) && u.now == w.now && u.reminderSeconds == w.reminderSeconds && u.log == w.log
            && u.used == w.used + {t} && u.windows == w.windows
            && t in u.jobs && u.jobs[t] == Job(row, w.now, Running(w.now))
  {
    var e, f := OutboxWrite(Claim(v, t, w.now)), Handler(Start(t));
    assert [e, f][..1] == [e] && [e][..0] == [];
    assert Run(w, [e]) == Apply(w, e);
    var x := Apply(w, e);
    assert x.jobs[t] == Job(ClaimedRow(v, t, w.now), w.now, Waiting);
  }

  /** Windows other than `u` are as they were, and the rest but for them and the leases. */
  predicate OnlyWindow(w: World, x: World, u: Token) {
    && x.now == w.now && x.reminderSeconds == w.reminderSeconds && x.log == w.log && x.jobs == w.jobs
    && x.windows.Keys == w.windows.Keys + {u} && (forall y :: y in w.windows && y != u ==> x.windows[y] == w.windows[y])
    && x.db.table == w.db.table && x.db.attention == w.db.attention && x.db.outbox == w.db.outbox
    && x.db.keys == w.db.keys
  }

  lemma LeaseAndBegin(w: World, row: Intent, t: Token, u: Token, id: string, r: AttentionRequest)
    requires t in w.jobs && w.jobs[t].row == row && w.jobs[t].handler.Running? && row.kind.ReportIntent?
             && row.caseId == id
    requires u !in w.used && u != NO_TOKEN && CanLease(w.db, w.now, row, r.expectedSequence)
    ensures var x := Run(w, [LeaseWrite(Acquire(t, u, r.expectedSequence)), Handler(BeginSend(u))]);
            && OnlyWindow(w, x, u) && x.db == GrantLease(w.db, w.now, row, LEASE_SECONDS, u)
            && x.windows[u] == Window(t, id, r.expectedSequence, w.now, Running(w.now), None, None, None)
  {
    var a, b := LeaseWrite(Acquire(t, u, r.expectedSequence)), Handler(BeginSend(u));
    assert [a, b][..1] == [a] && [a][..0] == [];
    assert Run(w, [a]) == Apply(w, a);
    assert Apply(w, a).windows[u] == Window(t, id, r.expectedSequence, w.now, Waiting, None, None, None);
  }

  lemma ReadBoth(w: World, t: Token, u: Token, id: string)
    requires u in w.windows && w.windows[u].sending.Running? && w.windows[u].check.None? && w.windows[u].caseId == id
    requires id in w.db.table.cases
    ensures var x := Run(w, [Handler(ReadCase(u)), Handler(ReadAttention(u))]);
            && OnlyWindow(w, x, u) && x.db == w.db
            && x.windows[u] == w.windows[u].(shown := Some(w.db.table.cases[id]), last := Some(Previous(w.db, id)))
  {
    var a, b := Handler(ReadCase(u)), Handler(ReadAttention(u));
    assert [a, b][..1] == [a] && [a][..0] == [];
    assert Run(w, [a]) == Apply(w, a);
  }

  lemma CheckOwed(w: World, row: Intent, t: Token, u: Token, id: string, r: AttentionRequest)
    requires t in w.jobs && w.jobs[t].row == row && row.payload.request == Some(r)
    requires u in w.windows && w.windows[u].sending.Running? && w.windows[u].check.None? && w.windows[u].claim == t
    requires w.windows[u].sequence == r.expectedSequence && id in w.db.table.cases && w.db.table.cases[id].Monitored()
    requires w.windows[u].shown == Some(w.db.table.cases[id]) && w.windows[u].last == Some(Previous(w.db, id))
    requires AttentionDue(w.db.table.cases[id], Previous(w.db, id), w.now, w.reminderSeconds) == Due(r)
    ensures var x := Apply(w, Handler(CheckAttention(u)));
            && OnlyWindow(w, x, u) && x.db == w.db
            && x.windows[u] == w.windows[u].(check := Some(Check(r.kind, r.generation, r.phase, r.severity,
                                                                 w.now, None)))
  {
    assert MayCheck(w, u) && StillOwed(w, u);
  }

  lemma EndAndStop(w: World, t: Token, u: Token)
    requires t in w.jobs && w.jobs[t].handler.Running? && u in w.windows && w.windows[u].claim == t
    requires forall y :: y in w.windows && y != u ==> w.windows[y].claim != t
    ensures var x := Run(w, [Handler(EndSend(u)), Handler(Stop(t))]);
            && x.db == w.db && x.now == w.now && x.log == w.log && x.reminderSeconds == w.reminderSeconds
            && x.jobs == w.jobs[t := w.jobs[t].(handler := Over)]
            && x.windows == w.windows[u := w.windows[u].(sending := Over)]
  {
    var a, b := Handler(EndSend(u)), Handler(Stop(t));
    assert [a, b][..1] == [a] && [a][..0] == [];
    assert Run(w, [a]) == Apply(w, a);
    assert Apply(w, a).windows[u].sending == Over;
  }

  lemma CommitChecked(w: World, row: Intent, t: Token, u: Token, id: string, r: AttentionRequest)
    requires t in w.jobs && w.jobs[t].row == row && w.jobs[t].handler.Over? && row.payload.request == Some(r)
    requires row.status.InProgress? && row.token == t && row.id in w.db.outbox && w.db.outbox[row.id] == row
             && row.caseId == id
    requires u in w.windows && w.windows[u].claim == t && w.windows[u].caseId == id && w.windows[u].sending.Over?
    requires w.windows[u].sequence == r.expectedSequence == Sequence(w.db, id)
    requires w.windows[u].check == Some(Check(r.kind, r.generation, r.phase, r.severity, w.now, None))
    requires id in w.db.table.cases && id in w.db.leases
    requires w.db.leases[id] == Lease(u, row.id, t, w.now + Seconds(LEASE_SECONDS))
    ensures var x := Apply(w, LeaseWrite(Commit(u, w.now)));
            var d := AttentionDelivery(id, r.generation, r.phase, r.severity, w.now, r.expectedSequence + 1);
            && LogOf(x, id) == LogOf(w, id) + [d] && Previous(x.db, id) == Some(d)
            && row.id in x.db.outbox && x.db.outbox[row.id].status.Succeeded?
            && x.db.outbox[row.id].payload.delivered == Some(r.kind) && id !in x.db.leases && x.db.keys == w.db.keys
  {
    var d := AttentionDelivery(id, r.generation, r.phase, r.severity, w.now, r.expectedSequence + 1);
    assert CommitDelivery(w.windows[u], w.now) == d;
    assert CommitRow(w, u) == row.(status := Succeeded, payload := row.payload.(delivered := Some(r.kind)));
    assert Commits(w, u, w.now);
  }

  /** What the delivery of a request leaves: one more on record, with the request's own
      fields, and its row completed as delivered. */
  predicate Announces(w: World, x: World, id: string, r: AttentionRequest) {
    && LogOf(x, id) == LogOf(w, id) + [AttentionDelivery(id, r.generation, r.phase, r.severity, x.now,
                                                         r.expectedSequence + 1)]
    && Previous(x.db, id) == Some(LogOf(x, id)[|LogOf(w, id)|])
    && r.key in x.db.keys && x.db.keys[r.key] in x.db.outbox
    && x.db.outbox[x.db.keys[r.key]].status.Succeeded?
    && x.db.outbox[x.db.keys[r.key]].payload.delivered == Some(r.kind)
  }

  predicate OwedNow(w: World, id: string, r: AttentionRequest) {
    && id in w.db.table.cases && w.db.table.cases[id].Monitored()
    && AttentionDue(w.db.table.cases[id], Previous(w.db, id), w.now, w.reminderSeconds) == Due(r)
  }

  /** Two tokens that nothing has used. */
  lemma FreshPair(w: World) returns (t: Token, u: Token)
    requires WindowsTied(w)
    ensures t != NO_TOKEN && u != NO_TOKEN && t != u && t !in w.used && u !in w.used && t !in w.jobs
    ensures forall y :: y in w.windows ==> w.windows[y].claim != t && y != t && y != u
  {
    t := FreshToken(w.used + w.jobs.Keys);
    u := t + 1;
    assert u !in w.used + w.jobs.Keys;
    forall y | y in w.windows ensures w.windows[y].claim != t && y != t && y != u {
      assert WindowTied(w, w.windows[y]);
    }
  }

  /** A request that is owed names the next turn. */
  lemma OwedIsNext(w: World, id: string, r: AttentionRequest)
    requires DeliveriesBounded(w) && LogMatches(w) && OwedNow(w, id, r)
    ensures r.expectedSequence == Sequence(w.db, id) && r.key == RequestKeyOf(id, r)
  {
  }

  lemma Claiming(w: World, v: Intent, t: Token, id: string, r: AttentionRequest)
    requires Stands(w, v, id, r) && (v.status.Pending? || v.status.Failed?)
    requires t !in w.used && t != NO_TOKEN && t !in w.jobs
    ensures var x, row := Run(w, [OutboxWrite(Claim(v, t, w.now)), Handler(Start(t))]), ClaimedRow(v, t, w.now);
            && t in x.jobs && x.jobs[t].row == row && x.jobs[t].handler.Running?
            && row.id in x.db.outbox && x.db.outbox[row.id] == row && x.db.keys == w.db.keys
            && x.db.table == w.db.table && x.db.attention == w.db.attention && x.db.leases == w.db.leases
            && x.now == w.now && x.reminderSeconds == w.reminderSeconds && x.log == w.log
            && x.used == w.used + {t} && x.windows == w.windows
  {
    ClaimAndStart(w, v, t);
  }

  /** One worker delivers a request whose row waits and whose lease is free. */
  lemma DeliverAlone(w: World, id: string, r: AttentionRequest) returns (events: seq<Event>)
    requires WindowsTied(w) && OwedNow(w, id, r) && r.expectedSequence == Sequence(w.db, id)
    requires Waits(w, id, r) && LeaseFree(w.db, id, w.now)
    ensures Announces(w, Run(w, events), id, r)
  {
    var t, u := FreshPair(w);
    var v := w.db.outbox[w.db.keys[r.key]];
    var a := [OutboxWrite(Claim(v, t, w.now)), Handler(Start(t))];
    Claiming(w, v, t, id, r);
    var b := SendAlone(Run(w, a), ClaimedRow(v, t, w.now), t, u, id, r);
    RunsJoin(w, a, b);
    events := a + b;
  }

  lemma SendAlone(w: World, row: Intent, t: Token, u: Token, id: string, r: AttentionRequest)
    returns (events: seq<Event>)
    requires OwedNow(w, id, r) && LeaseFree(w.db, id, w.now) && Sequence(w.db, id) == r.expectedSequence
    requires t in w.jobs && w.jobs[t].row == row && w.jobs[t].handler.Running? && row.kind.ReportIntent?
    requires row.status.InProgress? && row.token == t && row.id in w.db.outbox && w.db.outbox[row.id] == row
    requires row.caseId == id && row.payload.request == Some(r) && r.key in w.db.keys && w.db.keys[r.key] == row.id
    requires u !in w.used && u != NO_TOKEN && u !in w.windows && forall y :: y in w.windows ==> w.windows[y].claim != t
    ensures Announces(w, Run(w, events), id, r)
  {
    LeaseAndBegin(w, row, t, u, id, r);
    var a := [LeaseWrite(Acquire(t, u, r.expectedSequence)), Handler(BeginSend(u))];
    var w1 := Run(w, a);
    ReadBoth(w1, t, u, id);
    var b := [Handler(ReadCase(u)), Handler(ReadAttention(u))];
    var w2 := Run(w1, b);
    CheckOwed(w2, row, t, u, id, r);
    var e := Handler(CheckAttention(u));
    var w3 := Apply(w2, e);
    var c := FinishAlone(w3, row, t, u, id, r);
    var one := One(w2, e);
    RunsJoin(w2, [e], c);
    RunsJoin(w1, b, [e] + c);
    RunsJoin(w, a, b + ([e] + c));
    events := a + (b + ([e] + c));
  }

  lemma FinishAlone(w: World, row: Intent, t: Token, u: Token, id: string, r: AttentionRequest)
    returns (events: seq<Event>)
    requires t in w.jobs && w.jobs[t].row == row && w.jobs[t].handler.Running? && row.payload.request == Some(r)
    requires row.status.InProgress? && row.token == t && row.id in w.db.outbox && w.db.outbox[row.id] == row
             && row.caseId == id
    requires u in w.windows && w.windows[u].claim == t && w.windows[u].caseId == id
    requires forall y :: y in w.windows && y != u ==> w.windows[y].claim != t
    requires w.windows[u].sequence == r.expectedSequence == Sequence(w.db, id)
    requires w.windows[u].check == Some(Check(r.kind, r.generation, r.phase, r.severity, w.now, None))
    requires id in w.db.table.cases && id in w.db.leases
    requires w.db.leases[id] == Lease(u, row.id, t, w.now + Seconds(LEASE_SECONDS))
    requires r.key in w.db.keys && w.db.keys[r.key] == row.id
    ensures Announces(w, Run(w, events), id, r)
  {
    EndAndStop(w, t, u);
    var a := [Handler(EndSend(u)), Handler(Stop(t))];
    var x := Run(w, a);
    CommitChecked(x, row, t, u, id, r);
    var one := One(x, LeaseWrite(Commit(u, w.now)));
    RunsJoin(w, a, one);
    ClockStands(x, u);
    events := a + one;
  }

  lemma ClockStands(w: World, u: Token)
    ensures Apply(w, LeaseWrite(Commit(u, w.now))).now == w.now
  {
  }

  // ----- from any reachable state

  /** The instant by which the claim on a request's row and the lease of its case have
      lapsed. */
  function LapsedBy(w: World, id: string, r: AttentionRequest): (at: Instant)
    ensures at >= w.now
  {
    var lease := if id in w.db.leases then Max(w.now, w.db.leases[id].expiresAt) else w.now;
    if r.key in w.db.keys && w.db.keys[r.key] in w.db.outbox then
      var v := w.db.outbox[w.db.keys[r.key]];
      Max(lease, if v.claimExpiresAt.Some? then v.claimExpiresAt.value else v.createdAt + Seconds(600))
    else lease
  }

  /** When claim and lease have lapsed, nothing is in the way of a request. */
  lemma WayIsFree(w: World, id: string, r: AttentionRequest, at: Instant)
    requires at >= LapsedBy(w, id, r)
    ensures LeaseFree(w.db, id, at)
    ensures r.key in w.db.keys && w.db.keys[r.key] in w.db.outbox ==> ClaimExpired(w.db.outbox[w.db.keys[r.key]], at)
  {
  }

  lemma SameAnnounced(w: World, u: World, x: World, id: string, r: AttentionRequest)
    requires Announces(u, x, id, r) && u.log == w.log
    ensures Announces(w, x, id, r)
  {
  }

  /** Once nobody is at work and claim and lease have lapsed, one worker is enough. */
  lemma OneIsEnough(w: World, id: string, r: AttentionRequest) returns (events: seq<Event>)
    requires Sound(w) && OwedNow(w, id, r) && LapsedBy(w, id, r) == w.now
    ensures Announces(w, Run(w, events), id, r)
  {
    OwedIsNext(w, id, r);
    WayIsFree(w, id, r, w.now);
    var a := MakeWait(w, id, r);
    var x := Run(w, a);
    SoundAlways(w, a);
    var b := DeliverAlone(x, id, r);
    RunsJoin(w, a, b);
    events := a + b;
    SameAnnounced(w, x, Run(x, b), id, r);
  }

  lemma ComesToRest(w: World, id: string, r: AttentionRequest) returns (events: seq<Event>)
    requires Sound(w) && OwedNow(w, id, r)
    ensures var u := Run(w, events);
            Sound(u) && OwedNow(u, id, r) && LapsedBy(u, id, r) == u.now && u.log == w.log
  {
    events := Quiet(w, LapsedBy(w, id, r));
    SoundAlways(w, events);
    DueLater(w.db.table.cases[id], Previous(w.db, id), w.now, Run(w, events).now, w.reminderSeconds);
  }

  /** From every reachable state in which a request is owed to a monitored case, some run
      delivers that very request, once: crashed workers never block it for good. */
  lemma NeverStuck(now: Instant, reminderSeconds: int, events: seq<Event>, id: string, r: AttentionRequest)
    returns (more: seq<Event>)
    requires OwedNow(Run(Initial(now, reminderSeconds), events), id, r)
    ensures Announces(Run(Initial(now, reminderSeconds), events),
                      Run(Initial(now, reminderSeconds), events + more), id, r)
  {
    var start := Initial(now, reminderSeconds);
    var w := Run(start, events);
    DeliveredPastAlways(now, reminderSeconds, events);
    var a := ComesToRest(w, id, r);
    var b := OneIsEnough(Run(w, a), id, r);
    RunsJoin(w, a, b);
    more := a + b;
    RunsJoin(start, events, more);
    SameAnnounced(w, Run(w, a), Run(w, more), id, r);
  }
}
