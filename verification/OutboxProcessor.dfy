/** The outbox worker (app/cases/outbox.py): claim, handle, settle, and recover
    lapsed claims, while other workers act on the same rows. */
module OutboxProcessors {
  import opened Types
  import opened Attention
  import opened Outbox
  import opened Delivery
  import opened Fencing
  import opened Deployments
  import opened AttentionHandlers
  import opened ReportHandlers
  import opened Turns

  /** What became of one candidate. */
  datatype Outcome = Unhandled | NotClaimed | Completed | Errored | ClaimLost

  datatype Counts = Counts(processed: nat, succeeded: nat, failed: nat, skipped: nat)

  function Count(c: Counts, o: Outcome): Counts {
    match o
    case Unhandled => c.(skipped := c.skipped + 1)
    case NotClaimed => c.(skipped := c.skipped + 1)
    case Completed => c.(processed := c.processed + 1, succeeded := c.succeeded + 1)
    case Errored => c.(processed := c.processed + 1, failed := c.failed + 1)
    case ClaimLost => c.(processed := c.processed + 1, skipped := c.skipped + 1)
  }

  function Tally(outcomes: seq<Outcome>): Counts {
    if outcomes == [] then Counts(0, 0, 0, 0) else Count(Tally(outcomes[..|outcomes| - 1]), outcomes[|outcomes| - 1])
  }

  /** Every candidate is counted once as succeeded, failed or skipped; those
      processed are the ones claimed, of which some may have been lost. */
  lemma {:induction false} TallyAddsUp(outcomes: seq<Outcome>)
    ensures var c, all := Tally(outcomes), multiset(outcomes);
            && c.succeeded + c.failed + c.skipped == |outcomes|
            && c.succeeded == all[Completed] && c.failed == all[Errored]
            && c.skipped == all[Unhandled] + all[NotClaimed] + all[ClaimLost]
            && c.processed == all[Completed] + all[Errored] + all[ClaimLost]
  {
    if outcomes != [] {
      var before, last := outcomes[..|outcomes| - 1], outcomes[|outcomes| - 1];
      TallyAddsUp(before);
      assert multiset(outcomes) == multiset(before)[last := multiset(before)[last] + 1] by {
        assert outcomes == before + [last];
      }
    }
  }

  /** The row as the worker's own write left it. */
  predicate SettledBy(w: World, row: Intent, status: OutboxStatus) {
    && row.id in w.db.outbox && w.db.outbox[row.id].status == status
    && w.db.outbox[row.id].token == row.token && SameIntent(w.db.outbox[row.id], row)
  }

  predicate RetryDue(v: Intent, now: Instant) {
    v.status.Failed? && IsDue(v, now)
  }

  lemma TallyOneMore(outcomes: seq<Outcome>, o: Outcome)
    ensures Tally(outcomes + [o]) == Count(Tally(outcomes), o)
  {
    assert (outcomes + [o])[..|outcomes|] == outcomes;
  }

  /** What a candidate's turn does not decide: the fate of a notification, whether its
      payload updates a card, and whether an effect of another kind raises. */
  datatype Chance = Chance(fate: Fate, cardUpdate: bool, raises: bool)

  datatype Handling = Effected | Attended(attempt: Attempt) | Reported(report: ReportAttempt)

  /** How a handler came to its result, from `w` to `u`. */
  ghost predicate Answers(env: Deployment, enabled: bool, w: World, u: World, row: Intent, x: Chance,
                          result: HandlerOutcome,
                          h: Handling)
  {
    if !row.kind.ReportIntent? then result == if x.raises then Raised else Quiet(Sent)
    else if row.Attends() then
      h.Attended? && InAttempt(env, w, h.attempt, u) && Attempted(row, h.attempt, x.fate, result)
    else
      h.Reported? && InReport(env, w, h.report, u)
      && ReportAttempted(row, h.report, enabled, x.cardUpdate, x.fate, result)
  }

  /** What settling a result comes to: the row's own write, unless the claim was lost. */
  predicate Settles(w: World, row: Intent, result: HandlerOutcome, o: Outcome) {
    match result
    case Raised => o == if Claimed(w, row.id, row.token) then Errored else ClaimLost
    case Quiet(_) => o == if Claimed(w, row.id, row.token) then Completed else ClaimLost
    case Announced(d, _, u, _) => o == if Commits(w, u, d.deliveredAt) then Completed else ClaimLost
  }

  /** The write that settles a result: a failure is tried again after the backoff. */
  function Settling(w: World, row: Intent, result: HandlerOutcome, backoffSeconds: int): Event {
    match result
    case Raised => OutboxWrite(Fail(row.token, w.now + Seconds(backoffSeconds)))
    case Quiet(outcome) => OutboxWrite(Finish(row.token, outcome))
    case Announced(d, _, u, _) => LeaseWrite(Commit(u, d.deliveredAt))
  }

  /** A delivery that was committed: it is the last of its case, its row says so, and the
      lease is free. */
  predicate OnRecord(w: World, row: Intent, result: HandlerOutcome)
    requires result.Announced?
  {
    && row.caseId in w.db.attention && w.db.attention[row.caseId] == result.delivery && row.caseId !in w.db.leases
    && row.id in w.db.outbox && w.db.outbox[row.id].status == Succeeded
    && w.db.outbox[row.id].payload.delivered == if row.Attends() then Some(result.kind) else None
  }

  /** The states of a candidate's turn: at its start, at the compare-and-set of the claim,
      when its handler began, when its result was settled, and after that. */
  datatype Trial = Trial(
    start: World, mid: World, row: Intent, begun: World, result: HandlerOutcome, handling: Handling,
    settling: World, after: World)

  ghost predicate InTrial(env: Deployment, t: Trial) {
    env.leads(t.start, t.mid) && env.leads(t.mid, t.begun) && env.leads(t.begun, t.settling)
    && env.leads(t.settling, t.after)
  }

  /** Whether the row that was read is still there, as it was. */
  predicate StillThere(w: World, v: Intent) {
    Matches(w.db, v.id, v.status, Some(v.token))
  }

  /** What becomes of a candidate: a kind without a handler is skipped; a row that was
      written since it was read is not claimed; any other is claimed, handled and settled. */
  ghost predicate Tried(env: Deployment, kinds: set<IntentKind>, enabled: bool, backoffSeconds: int,
                        v: Intent, x: Chance,
                        o: Outcome, t: Trial)
  {
    if v.kind !in kinds then o.Unhandled? && t.after == t.start
    else if !StillThere(t.mid, v) then o.NotClaimed? && t.after == t.mid
    else
      && t.row == ClaimedRow(v, t.row.token, t.start.now) && t.row.token !in t.start.used
      && t.begun.db == Write(t.mid.db, t.row)
      && Answers(env, enabled, t.begun, t.settling, t.row, x, t.result, t.handling)
      && Settles(t.settling, t.row, t.result, o)
      && (o.Completed? && t.result.Announced? ==> OnRecord(t.after, t.row, t.result))
      && t.after == Apply(t.settling, Settling(t.settling, t.row, t.result, backoffSeconds))
  }

  /** A candidate is passed over exactly for its kind, and is not claimed exactly when its
      row was written since it was read; otherwise it is claimed for ten minutes, and ends
      completed, failed or with its claim lost. */
  lemma TriedMeans(env: Deployment, kinds: set<IntentKind>, enabled: bool, backoffSeconds: int, v: Intent, x: Chance,
                   o: Outcome, t: Trial)
    requires Tried(env, kinds, enabled, backoffSeconds, v, x, o, t)
    ensures o.Unhandled? <==> v.kind !in kinds
    ensures o.NotClaimed? <==>
              && v.kind in kinds
              && !(v.id in t.mid.db.outbox && t.mid.db.outbox[v.id].status == v.status
                   && t.mid.db.outbox[v.id].token == v.token)
    ensures !o.Unhandled? && !o.NotClaimed? ==>
              && v.id in t.begun.db.outbox && t.begun.db.outbox[v.id] == t.row && t.row.status == InProgress
              && t.row.claimExpiresAt == Some(t.start.now + 600_000_000) && SameIntent(t.row, v)
    ensures (o.Errored? ==> t.result.Raised?) && (o.Completed? ==> !t.result.Raised?)
  {
  }

  /** A handler that raised leaves its row failed, and due again exactly when the backoff
      has passed. */
  lemma RaisedIsRetried(w: World, row: Intent, backoffSeconds: int, at: Instant)
    requires row.token in w.jobs && w.jobs[row.token].row == row && w.jobs[row.token].handler == Over
    requires Claimed(w, row.id, row.token)
    ensures var u := Apply(w, Settling(w, row, Raised, backoffSeconds));
            && row.id in u.db.outbox && u.db.outbox[row.id].status == OutboxStatus.Failed
            && (RetryDue(u.db.outbox[row.id], at) <==> at >= w.now + backoffSeconds * 1_000_000)
            && u.db.outbox[row.id].payload == row.payload && u.db.outbox[row.id].attempts == row.attempts
  {
    assert OutboxRow(w, Fail(row.token, w.now + Seconds(backoffSeconds))).Some?;
  }

  /** An attention row that ends as sent is announced: it was seen owed twice under its
      lease, and the request's own fields are the last delivery of its case. */
  lemma SentIsAnnounced(env: Deployment, kinds: set<IntentKind>, enabled: bool, backoffSeconds: int,
                        v: Intent, x: Chance,
                        o: Outcome, t: Trial)
    requires Tried(env, kinds, enabled, backoffSeconds, v, x, o, t) && v.Attends() && v.kind.ReportIntent?
             && o.Completed?
    ensures t.handling.Attended?
    ensures t.result.Announced? <==>
              && ComesToSend(t.row, t.handling.attempt, x.fate)
              && (x.fate.answer == Delivered
                  || (x.fate.answer.Superseded? && v.payload.request.value.kind == New
                      && x.fate.answer.verifiedAt <= t.handling.attempt.sent.now))
    ensures t.result.Announced? ==>
              var r := v.payload.request.value;
              && v.caseId in t.after.db.attention && v.id in t.after.db.outbox
              && t.after.db.attention[v.caseId].generation == r.generation
              && t.after.db.attention[v.caseId].phase == r.phase
              && t.after.db.attention[v.caseId].severity == r.severity
              && t.after.db.attention[v.caseId].sequence == r.expectedSequence + 1
              && t.after.db.outbox[v.id].payload.delivered == Some(r.kind)
  {
    AnnouncedIff(t.row, t.handling.attempt, x.fate, t.result);
  }

  /** A claim that has lapsed and is one that is put back. */
  predicate Lapsed(v: Intent, at: Instant) {
    v.kind.ReportIntent? && ClaimExpired(v, at)
  }

  /** No report claim that had lapsed at `w` holds its row at `u`. */
  predicate NoneLapsed(w: World, u: World) {
    forall id :: id in w.db.outbox ==>
      var v := w.db.outbox[id];
      v.status.InProgress? && Lapsed(v, w.now) ==> !Claimed(u, v.id, v.token)
  }

  /** Pending rows come first, then failed ones, each once and oldest first. */
  predicate InOrder(rows: seq<Intent>) {
    forall i, j :: 0 <= i < j < |rows| ==>
      && rows[i] != rows[j] && (rows[j].status.Pending? ==> rows[i].status.Pending?)
      && (rows[i].status == rows[j].status ==> rows[i].createdAt <= rows[j].createdAt)
  }

  /** The states of a listing: when lapsed claims had been put back, when the pending rows
      were read, and when the failed ones were. */
  datatype Listing = Listing(recovered: World, pending: World, failed: World)

  ghost predicate InListing(env: Deployment, l: Listing) {
    env.leads(l.recovered, l.pending) && env.leads(l.pending, l.failed)
  }

  /** The rows of a listing: those that were pending, then the failed ones without a retry
      time or with one that had come. */
  ghost predicate Lists(l: Listing, due: seq<Intent>) {
    && InOrder(due)
    && forall v :: v in due <==>
          || (v in l.pending.db.outbox.Values && v.status == OutboxStatus.Pending)
          || (v in l.failed.db.outbox.Values && v.status == OutboxStatus.Failed
              && (v.nextAttemptAt == None || v.nextAttemptAt.value <= l.failed.now))
  }

  lemma JoinInOrder(pending: seq<Intent>, failed: seq<Intent>)
    requires (forall v :: v in pending ==> v.status.Pending?) && (forall v :: v in failed ==> v.status.Failed?)
    requires InOrder(pending) && InOrder(failed)
    ensures InOrder(pending + failed)
  {
  }

  /** Part of a listing, in its order. */
  predicate Sublist(kept: seq<Intent>, rows: seq<Intent>, places: seq<nat>) {
    && |places| == |kept|
    && (forall k :: 0 <= k < |kept| ==> places[k] < |rows| && kept[k] == rows[places[k]])
    && (forall j, k :: 0 <= j < k < |kept| ==> places[j] < places[k])
  }

  lemma AnswersLater(env: Deployment, enabled: bool, w: World, u: World, later: World, row: Intent, x: Chance,
                     result: HandlerOutcome, h: Handling)
    requires env.Valid() && env.leads(u, later) && Answers(env, enabled, w, u, row, x, result, h)
    ensures Answers(env, enabled, w, later, row, x, result, h)
  {
  }

  /** A claim that lost its row has lost it for good. */
  lemma StaysReleased(env: Deployment, w: World, v: Intent)
    requires env.Valid() && env.Guarded() && env.keeps(w) && env.leads(w, env.world)
    requires v in w.seen && v.status.InProgress? && !Claimed(w, v.id, v.token)
    ensures !Claimed(env.world, v.id, v.token)
  {
    assert Rows(w);
    assert v.token in w.jobs;
  }

  class OutboxProcessor {
    const env: Deployment
    const kinds: set<IntentKind>
    const attentionEnabled: bool
    const backoffSeconds: int

    constructor (env: Deployment, kinds: set<IntentKind>, attentionEnabled: bool, backoffSeconds: int)
      ensures this.env == env && this.kinds == kinds && this.attentionEnabled == attentionEnabled
              && this.backoffSeconds == backoffSeconds
    {
      this.env, this.kinds, this.attentionEnabled, this.backoffSeconds := env, kinds, attentionEnabled, backoffSeconds;
    }

    method RunEffect(row: Intent)
      requires env.Valid() && Working(env.world, row) && NoWindows(env.world, row.token)
      modifies env`nextToken, env`world, env.store
      ensures env.Valid() && Working(env.world, row) && WindowsOver(env.world, row.token)
      ensures env.leads(old(env.world), env.world)
    {
      env.Interfere({row.token});
    }

    /** An external effect of another kind: it happens or raises. */
    method HandleEffect(row: Intent, raises: bool) returns (o: HandlerOutcome)
      requires env.Valid() && Ready(env.world, row) && !row.Attends()
      modifies env`nextToken, env`world, env.store
      ensures env.Valid() && Handled(env.world, row, o) && env.leads(old(env.world), env.world)
      ensures o == if raises then Raised else Quiet(Sent)
    {
      env.Step(Start(row.token));
      RunEffect(row);
      o := if raises then Raised else Quiet(Sent);
      env.Step(Stop(row.token));
    }

    method RunHandler(row: Intent, x: Chance) returns (o: HandlerOutcome, ghost h: Handling)
      requires env.Valid() && Ready(env.world, row) && (row.Attends() ==> row.kind.ReportIntent?)
      modifies env`nextToken, env`world, env.store
      ensures env.Valid() && Handled(env.world, row, o) && env.leads(old(env.world), env.world)
      ensures Answers(env, attentionEnabled, old(env.world), env.world, row, x, o, h)
    {
      h := Effected;
      if !row.kind.ReportIntent? {
        o := HandleEffect(row, x.raises);
      } else if row.Attends() {
        ghost var a;
        o, a := HandleAttention(env, row, x.fate);
        h := Attended(a);
      } else {
        ghost var a;
        o, a := HandleReport(env, row, attentionEnabled, x.cardUpdate, x.fate);
        h := Reported(a);
      }
    }

    method SettleError(row: Intent) returns (o: Outcome)
      requires env.Valid() && Handled(env.world, row, Raised)
      modifies env`world, env.store
      ensures env.Valid() && env.world == Apply(old(env.world), Settling(old(env.world), row, Raised, backoffSeconds))
      ensures o == if Claimed(old(env.world), row.id, row.token) then Errored else ClaimLost
      ensures o.Errored? ==> SettledBy(env.world, row, OutboxStatus.Failed)
      ensures !Claimed(env.world, row.id, row.token)
    {
      var retryAt := env.store.now + Seconds(backoffSeconds);
      var errored := row.(status := OutboxStatus.Failed, nextAttemptAt := Some(retryAt));
      var stored := env.StoreRow(errored, InProgress, Some(row.token), Fail(row.token, retryAt));
      o := if stored.None? then ClaimLost else Errored;
    }

    method SettleQuiet(row: Intent, outcome: Suppression) returns (o: Outcome)
      requires env.Valid() && Handled(env.world, row, Quiet(outcome))
      modifies env`world, env.store
      ensures env.Valid()
              && env.world == Apply(old(env.world), Settling(old(env.world), row, Quiet(outcome), backoffSeconds))
      ensures o == if Claimed(old(env.world), row.id, row.token) then Completed else ClaimLost
      ensures o.Completed? ==> SettledBy(env.world, row, Succeeded)
      ensures !Claimed(env.world, row.id, row.token)
    {
      var completed := row.(status := Succeeded, payload := row.payload.(suppressed := outcome));
      var stored := env.StoreRow(completed, InProgress, Some(row.token), Finish(row.token, outcome));
      o := if stored.None? then ClaimLost else Completed;
    }

    /** The commit can be refused although the row is still claimed: the claim then
        stays until it lapses. */
    method SettleDelivery(row: Intent, d: AttentionDelivery, kind: Kind, u: Token, report: Option<Signature>)
      returns (o: Outcome)
      requires env.Valid() && Handled(env.world, row, Announced(d, kind, u, report))
      requires row.token in env.world.jobs && row.token != NO_TOKEN
      modifies env`world, env.store
      ensures env.Valid() && env.world == Apply(old(env.world), LeaseWrite(Commit(u, d.deliveredAt)))
      ensures o == if Commits(old(env.world), u, d.deliveredAt) then Completed else ClaimLost
      ensures o.Completed? ==>
                SettledBy(env.world, row, Succeeded) && OnRecord(env.world, row, Announced(d, kind, u, report))
    {
      var completed := row.(status := Succeeded,
                            payload := row.payload.(delivered := if row.Attends() then Some(kind) else None));
      var stored := env.Complete(completed, d, u, report);
      o := if stored.Committed? then Completed else ClaimLost;
    }

    method Settle(row: Intent, result: HandlerOutcome) returns (o: Outcome)
      requires env.Valid() && Handled(env.world, row, result) && row.token != NO_TOKEN
      modifies env`world, env.store
      ensures env.Valid() && Settles(old(env.world), row, result, o)
      ensures env.world == Apply(old(env.world), Settling(old(env.world), row, result, backoffSeconds))
      ensures o.Completed? ==> SettledBy(env.world, row, Succeeded)
      ensures o.Completed? && result.Announced? ==> OnRecord(env.world, row, result)
      ensures o.Errored? ==> SettledBy(env.world, row, OutboxStatus.Failed)
      ensures o.ClaimLost? && !result.Announced? ==> !Claimed(env.world, row.id, row.token)
    {
      match result
      case Raised => o := SettleError(row);
      case Quiet(outcome) => o := SettleQuiet(row, outcome);
      case Announced(d, kind, u, report) => o := SettleDelivery(row, d, kind, u, report);
    }

    /** A compare-and-set claim of a row this worker has read, at `mid`. Other workers may
        act after the claim's expiry is computed and before it is stored. */
    method TryClaim(v: Intent) returns (claimed: Option<Intent>, ghost mid: World)
      requires env.Valid() && v in env.snapshots && (v.status.Pending? || v.status.Failed?)
      modifies env`nextToken, env`world, env.store
      ensures env.Valid() && env.leads(old(env.world), mid) && env.leads(mid, env.world)
      ensures claimed.Some? <==> StillThere(mid, v)
      ensures claimed.None? ==> env.world == mid
      ensures claimed.Some? ==>
                var row := claimed.value;
                && Ready(env.world, row) && row.token !in old(env.world).used
                && row == ClaimedRow(v, row.token, old(env.world).now) && env.world.db == Write(mid.db, row)
    {
      var t := env.Draw();
      var stamped := env.store.now;
      env.InterfereBriefly({t}, stamped + CLAIM_SLACK);
      mid := env.world;
      claimed := env.StoreClaim(v, t, stamped);
    }

    /** One candidate. A claim this worker settled is no longer in progress under its
        token; one it lost was taken over, or keeps until it lapses. */
    method ProcessOne(v: Intent, x: Chance) returns (o: Outcome, ghost t: Trial)
      requires env.Valid() && v in env.snapshots && (v.status.Pending? || v.status.Failed?)
      modifies env`nextToken, env`world, env.store
      ensures env.Valid() && t.start == old(env.world) && t.after == env.world && InTrial(env, t)
      ensures Tried(env, kinds, attentionEnabled, backoffSeconds, v, x, o, t)
      ensures o.Completed? ==> SettledBy(env.world, t.row, Succeeded)
      ensures o.Errored? ==> SettledBy(env.world, t.row, OutboxStatus.Failed)
    {
      ghost var start := env.world;
      t := Trial(start, start, v, start, Raised, Effected, start, start);
      if v.kind !in kinds {
        return Unhandled, t;
      }
      var claimed;
      ghost var mid;
      claimed, mid := TryClaim(v);
      if claimed.None? {
        t := Trial(start, mid, v, mid, Raised, Effected, mid, mid);
        return NotClaimed, t;
      }
      ghost var begun := env.world;
      ghost var result, h, settling;
      o, result, h, settling := HandleAndSettle(claimed.value, x);
      t := Trial(start, mid, claimed.value, begun, result, h, settling, env.world);
    }

    method HandleAndSettle(row: Intent, x: Chance)
      returns (o: Outcome, ghost result: HandlerOutcome, ghost h: Handling, ghost settling: World)
      requires env.Valid() && Ready(env.world, row) && (row.Attends() ==> row.kind.ReportIntent?)
      modifies env`nextToken, env`world, env.store
      ensures env.Valid() && env.leads(old(env.world), settling) && env.leads(settling, env.world)
      ensures Answers(env, attentionEnabled, old(env.world), settling, row, x, result, h)
      ensures Settles(settling, row, result, o)
      ensures env.world == Apply(settling, Settling(settling, row, result, backoffSeconds))
      ensures o.Completed? ==> SettledBy(env.world, row, Succeeded)
      ensures o.Completed? && result.Announced? ==> OnRecord(env.world, row, result)
      ensures o.Errored? ==> SettledBy(env.world, row, OutboxStatus.Failed)
    {
      var answer;
      answer, h := RunHandler(row, x);
      result := answer;
      ghost var begun := old(env.world);
      ghost var handled := env.world;
      env.Interfere({row.token} + if answer.Announced? then {answer.lease} else {});
      settling := env.world;
      AnswersLater(env, attentionEnabled, begun, handled, settling, row, x, result, h);
      o := Settle(row, answer);
    }

    method CountOne(v: Intent, x: Chance, counts: Counts) returns (c: Counts, ghost o: Outcome, ghost t: Trial)
      requires env.Valid() && v in env.snapshots && (v.status.Pending? || v.status.Failed?)
      modifies env`nextToken, env`world, env.store
      ensures env.Valid() && c == Count(counts, o) && env.leads(old(env.world), t.start) && t.after == env.world
      ensures InTrial(env, t) && Tried(env, kinds, attentionEnabled, backoffSeconds, v, x, o, t)
    {
      env.Interfere({});
      var outcome;
      outcome, t := ProcessOne(v, x);
      o := outcome;
      c := Counted(outcome, counts);
    }

    static method Counted(o: Outcome, counts: Counts) returns (c: Counts)
      ensures c == Count(counts, o)
    {
      c := counts;
      match o {
        case Unhandled => c := c.(skipped := c.skipped + 1);
        case NotClaimed => c := c.(skipped := c.skipped + 1);
        case Completed => c := c.(processed := c.processed + 1, succeeded := c.succeeded + 1);
        case Errored => c := c.(processed := c.processed + 1, failed := c.failed + 1);
        case ClaimLost => c := c.(processed := c.processed + 1, skipped := c.skipped + 1);
      }
    }

    /** The turn of the candidate in a place. */
    ghost function TrialOf(candidates: seq<Intent>, chances: nat -> Chance): (nat, Outcome, Trial) -> bool {
      (k: nat, o, t) =>
        k < |candidates| && InTrial(env, t)
        && Tried(env, kinds, attentionEnabled, backoffSeconds, candidates[k], chances(k), o, t)
    }

    ghost function TrialAfter(): (Trial, Trial) -> bool {
      (t: Trial, u: Trial) => env.leads(t.after, u.start)
    }

    method TryNext(candidates: seq<Intent>, k: nat, chances: nat -> Chance, counts: Counts)
      returns (c: Counts, ghost o: Outcome, ghost t: Trial)
      requires env.Valid() && k < |candidates| && candidates[k] in env.snapshots
      requires candidates[k].status.Pending? || candidates[k].status.Failed?
      modifies env`nextToken, env`world, env.store
      ensures env.Valid() && c == Count(counts, o) && env.leads(old(env.world), t.start) && t.after == env.world
      ensures TrialOf(candidates, chances)(k, o, t)
    {
      c, o, t := CountOne(candidates[k], chances(k), counts);
    }

    /** Every candidate, in order, with other workers between them. */
    method ProcessCandidates(candidates: seq<Intent>, chances: nat -> Chance)
      returns (c: Counts, ghost outcomes: seq<Outcome>, ghost trials: seq<Trial>)
      requires env.Valid()
      requires forall k :: 0 <= k < |candidates| ==>
                 candidates[k] in env.snapshots && (candidates[k].status.Pending? || candidates[k].status.Failed?)
      modifies env`nextToken, env`world, env.store
      ensures env.Valid() && |outcomes| == |candidates| && c == Tally(outcomes)
      ensures InSequence(TrialOf(candidates, chances), TrialAfter(), outcomes, trials)
      ensures trials != [] ==> env.leads(old(env.world), trials[0].start)
    {
      c, outcomes, trials := Counts(0, 0, 0, 0), [], [];
      ghost var done, after := TrialOf(candidates, chances), TrialAfter();
      for k := 0 to |candidates|
        invariant env.Valid() && |outcomes| == |trials| == k && c == Tally(outcomes)
        invariant InSequence(done, after, outcomes, trials)
        invariant if k == 0 then env.world == old(env.world)
                  else env.leads(old(env.world), trials[0].start) && trials[k - 1].after == env.world
      {
        ghost var o, t;
        c, o, t := TryNext(candidates, k, chances, c);
        TallyOneMore(outcomes, o);
        SequenceOneMore(done, after, outcomes, trials, o, t);
        outcomes, trials := outcomes + [o], trials + [t];
      }
    }

    /** Put a lapsed claim back, unless its row moved on. */
    method RecoverOne(v: Intent, checkedAt: Instant)
      requires env.Valid() && v in env.snapshots && v.status.InProgress? && v.kind.ReportIntent?
      requires ClaimExpired(v, checkedAt) && checkedAt <= env.world.now
      modifies env`world, env.store
      ensures env.Valid() && !Claimed(env.world, v.id, v.token) && env.world.now == old(env.world).now
      ensures env.leads(old(env.world), env.world)
              && env.world == Apply(old(env.world), OutboxWrite(Recover(v, checkedAt)))
    {
      var retry := v.(status := Pending, nextAttemptAt := Some(env.store.now));
      var stored := env.StoreRow(retry, InProgress, Some(v.token), Recover(v, checkedAt));
    }

    /** None of the lapsed claims among the rows holds its row afterwards. */
    method RecoverLapsed(rows: seq<Intent>)
      requires env.Valid() && env.Guarded() && forall v :: v in rows ==> v in env.snapshots && v.status.InProgress?
      modifies env`nextToken, env`world, env.store
      ensures env.Valid() && env.leads(old(env.world), env.world)
      ensures forall k :: 0 <= k < |rows| && Lapsed(rows[k], old(env.world).now) ==>
                !Claimed(env.world, rows[k].id, rows[k].token)
    {
      var checkedAt := env.store.now;
      for k := 0 to |rows|
        invariant env.Valid() && checkedAt <= env.world.now && env.leads(old(env.world), env.world)
        invariant forall j :: 0 <= j < k && Lapsed(rows[j], checkedAt) ==>
                    !Claimed(env.world, rows[j].id, rows[j].token)
      {
        if rows[k].kind.ReportIntent? && ClaimExpired(rows[k], checkedAt) {
          RecoverNext(rows, k, checkedAt);
        }
      }
    }

    method RecoverNext(rows: seq<Intent>, k: nat, checkedAt: Instant)
      requires env.Valid() && env.Guarded() && k < |rows| && checkedAt <= env.world.now && Lapsed(rows[k], checkedAt)
      requires forall v :: v in rows ==> v in env.snapshots && v.status.InProgress?
      requires forall j :: 0 <= j < k && Lapsed(rows[j], checkedAt) ==> !Claimed(env.world, rows[j].id, rows[j].token)
      modifies env`nextToken, env`world, env.store
      ensures env.Valid() && env.leads(old(env.world), env.world) && checkedAt <= env.world.now
      ensures forall j :: 0 <= j <= k && Lapsed(rows[j], checkedAt) ==> !Claimed(env.world, rows[j].id, rows[j].token)
    {
      ghost var start := env.world;
      assert forall j :: 0 <= j < |rows| ==> rows[j] in rows;
      env.Interfere({});
      RecoverOne(rows[k], checkedAt);
      forall j | 0 <= j < k && Lapsed(rows[j], checkedAt) ensures !Claimed(env.world, rows[j].id, rows[j].token) {
        StaysReleased(env, start, rows[j]);
      }
    }

    /** Report claims that had lapsed when the pass began do not hold their rows after it. */
    method RecoverFirst()
      requires env.Valid() && env.Guarded()
      modifies env`nextToken, env`world, env`snapshots, env.store
      ensures env.Valid() && env.leads(old(env.world), env.world)
      ensures ReportIntent in kinds ==> NoneLapsed(old(env.world), env.world)
    {
      if ReportIntent in kinds {
        var claimed := env.List(InProgress);
        RecoverLapsed(claimed);
      }
    }

    /** The rows to try, after lapsed report claims were put back. */
    method DueIntents() returns (due: seq<Intent>, ghost l: Listing)
      requires env.Valid() && env.Guarded()
      modifies env`nextToken, env`world, env`snapshots, env.store
      ensures env.Valid() && (forall v :: v in due ==> v in env.snapshots)
      ensures env.leads(old(env.world), l.recovered) && InListing(env, l) && l.failed == env.world
      ensures ReportIntent in kinds ==> NoneLapsed(old(env.world), l.recovered)
      ensures Lists(l, due)
    {
      RecoverFirst();
      ghost var recovered := env.world;
      env.Interfere({});
      due, l := ListDue(recovered);
    }

    method ListDue(ghost recovered: World) returns (due: seq<Intent>, ghost l: Listing)
      requires env.Valid() && env.Guarded() && env.leads(recovered, env.world)
      modifies env`nextToken, env`world, env`snapshots, env.store
      ensures env.Valid() && (forall v :: v in due ==> v in env.snapshots)
      ensures l.recovered == recovered && InListing(env, l) && l.failed == env.world && Lists(l, due)
    {
      var pending := PendingRows();
      ghost var listed := env.world;
      env.Interfere({});
      var dueFailed := DueFailed();
      JoinInOrder(pending, dueFailed);
      due, l := pending + dueFailed, Listing(recovered, listed, env.world);
    }

    method PendingRows() returns (pending: seq<Intent>)
      requires env.Valid() && env.Guarded()
      modifies env`snapshots
      ensures env.Valid() && old(env.snapshots) <= env.snapshots && InOrder(pending)
      ensures forall v :: v in pending ==> v in env.snapshots && v.status.Pending?
      ensures forall v :: v in pending <==> v in env.world.db.outbox.Values && v.status.Pending?
    {
      pending := env.List(Pending);
    }

    method DueFailed() returns (due: seq<Intent>)
      requires env.Valid() && env.Guarded()
      modifies env`snapshots
      ensures env.Valid() && old(env.snapshots) <= env.snapshots && InOrder(due)
      ensures forall v :: v in due ==> v in env.snapshots && v.status.Failed?
      ensures forall v :: v in due <==> v in env.world.db.outbox.Values && RetryDue(v, env.world.now)
    {
      var failed := env.List(OutboxStatus.Failed);
      assert forall v :: v in failed <==> v in env.world.db.outbox.Values && v.status.Failed?;
      ghost var places;
      due, places := KeepDue(failed, env.store.now);
    }

    static method KeepDue(failed: seq<Intent>, now: Instant) returns (kept: seq<Intent>, ghost places: seq<nat>)
      ensures forall v :: v in kept <==> v in failed && IsDue(v, now)
      ensures Sublist(kept, failed, places)
    {
      kept, places := [], [];
      for k := 0 to |failed|
        invariant forall v :: v in kept <==> v in failed[..k] && IsDue(v, now)
        invariant Sublist(kept, failed, places) && forall j :: 0 <= j < |places| ==> places[j] < k
      {
        if IsDue(failed[k], now) {
          kept, places := kept + [failed[k]], places + [k];
        }
      }
    }

    /** One pass over the first due rows, after lapsed claims were put back. */
    method ProcessPending(limit: int, chances: nat -> Chance)
      returns (c: Counts, ghost outcomes: seq<Outcome>, ghost trials: seq<Trial>, ghost due: seq<Intent>,
               ghost l: Listing)
      requires env.Valid() && env.Guarded()
      modifies env`nextToken, env`world, env`snapshots, env.store
      ensures env.Valid() && c == Tally(outcomes) && |outcomes| == Min(Max(0, limit), |due|)
      ensures InSequence(TrialOf(due[..|outcomes|], chances), TrialAfter(), outcomes, trials)
      ensures env.leads(old(env.world), l.recovered) && InListing(env, l)
      ensures trials != [] ==> env.leads(l.failed, trials[0].start)
      ensures ReportIntent in kinds ==> NoneLapsed(old(env.world), l.recovered)
      ensures Lists(l, due)
    {
      var rows;
      rows, l := DueIntents();
      due := rows;
      var n := Min(Max(0, limit), |rows|);
      assert forall k :: 0 <= k < n ==> rows[..n][k] == rows[k] && rows[k] in rows;
      c, outcomes, trials := ProcessCandidates(rows[..n], chances);
    }

    /** A newly queued intent, tried at once. Only a pending one may be. */
    method ProcessIntent(v: Intent, x: Chance)
      returns (c: Option<Counts>, ghost outcomes: seq<Outcome>, ghost trials: seq<Trial>)
      requires env.Valid() && v in env.snapshots
      modifies env`nextToken, env`world, env.store
      ensures env.Valid() && (c.None? <==> !v.status.Pending?)
      ensures c.Some? ==> c.value == Tally(outcomes) && |outcomes| == 1
                          && InSequence(TrialOf([v], (k: nat) => x), TrialAfter(), outcomes, trials)
    {
      outcomes, trials := [], [];
      if !v.status.Pending? {
        return None, [], [];
      }
      var counts;
      counts, outcomes, trials := ProcessCandidates([v], (k: nat) => x);
      c := Some(counts);
    }
  }
}
