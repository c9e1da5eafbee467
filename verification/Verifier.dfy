/** The verification scheduler (app/cases/verifier.py) over the ledger. Other
    writers act between listing the due rows, each check, and each decision. */
module Verifier {
  import opened Types
  import opened Ids
  import opened Lhp
  import opened Ledger
  import opened HandoffRuns
  import opened VerifierRuns
  import opened LedgerStores

  // ----- what the other writers leave

  lemma {:induction false} DefineKeepsVersions(s: State, h: Handoff, objectives: seq<Objective>)
    ensures s.versions <= Define(s, h, objectives).versions
  {
    if objectives != [] {
      DefineKeepsVersions(s, h, objectives[..|objectives| - 1]);
    }
  }

  lemma StepGrows(w: World, e: Event)
    ensures w.db.versions <= Apply(w, e).db.versions && w.cleared <= Apply(w, e).cleared
  {
    var t := ObjectiveStep(w, e);
    if e.OpenHandoff? {
      DefineKeepsVersions(w.db, e.h, e.objectives);
    }
  }

  /** No run forgets a row version, a clearing or a handoff, or changes whose a handoff is. */
  lemma {:induction false} RunsGrow(before: seq<Event>, after: seq<Event>)
    requires before <= after
    ensures Run(before).db.versions <= Run(after).db.versions && Run(before).cleared <= Run(after).cleared
    ensures forall id :: id in Run(before).db.handoffs ==>
              id in Run(after).db.handoffs && SameIdentity(Run(before).db.handoffs[id], Run(after).db.handoffs[id])
  {
    if |before| < |after| {
      var n := |after| - 1;
      RunsGrow(before, after[..n]);
      StepGrows(Run(after[..n]), after[n]);
      forall id | id in Run(after[..n]).db.handoffs
        ensures id in Run(after).db.handoffs
                && SameIdentity(Run(after[..n]).db.handoffs[id], Run(after).db.handoffs[id])
      {
        HandoffStep(Run(after[..n]), after[n], id);
      }
    } else {
      assert before == after;
    }
  }

  // ----- counting

  datatype Report = Report(
    checked: nat, updated: nat, passed: nat, failed: nat, unknown: nat, verified: nat, resolved: nat)

  function CountResult(r: Report, result: ObjectiveStatus, dryRun: bool): Report {
    r.(checked := r.checked + 1,
       passed := r.passed + if result.Pass? then 1 else 0,
       failed := r.failed + if result.Fail? then 1 else 0,
       unknown := r.unknown + if result.Pass? || result.Fail? then 0 else 1,
       updated := r.updated + if dryRun then 0 else 1)
  }

  function CountAll(results: seq<ObjectiveStatus>, dryRun: bool): Report {
    if results == [] then Report(0, 0, 0, 0, 0, 0, 0)
    else CountResult(CountAll(results[..|results| - 1], dryRun), results[|results| - 1], dryRun)
  }

  lemma CountOneMore(results: seq<ObjectiveStatus>, result: ObjectiveStatus, dryRun: bool)
    ensures CountAll(results + [result], dryRun) == CountResult(CountAll(results, dryRun), result, dryRun)
  {
    assert (results + [result])[..|results|] == results;
  }

  /** Every due objective is counted once, under exactly one outcome. */
  lemma {:induction false} CountsAddUp(results: seq<ObjectiveStatus>, dryRun: bool)
    ensures var r := CountAll(results, dryRun);
            && r.checked == |results| == r.passed + r.failed + r.unknown
            && r.passed == multiset(results)[Pass] && r.failed == multiset(results)[Fail]
            && r.updated == (if dryRun then 0 else |results|) && r.verified == 0 && r.resolved == 0
  {
    if results != [] {
      var n := |results| - 1;
      CountsAddUp(results[..n], dryRun);
      assert results == results[..n] + [results[n]];
    }
  }

  // ----- what is due

  /** The filter of `list_due_verification_objectives`; the handoff is joined on the column. */
  predicate IsDue(s: State, id: ObjectiveId, now: Instant) {
    && id in s.objectives && id in s.owners
    && !s.objectives[id].status.Pass? && !s.objectives[id].status.Skipped?
    && (s.objectives[id].nextCheckAt.None? || s.objectives[id].nextCheckAt.value <= now)
    && (s.owners[id] == "" || (s.owners[id] in s.handoffs && !Terminal(s.handoffs[s.owners[id]].status)))
  }

  ghost function DueRows(s: State, now: Instant): set<Objective> {
    set id | id in s.objectives && IsDue(s, id, now) :: s.objectives[id]
  }

  function BoundedLimit(limit: int): (r: nat)
    ensures 1 <= r <= 500 && (limit <= 0 ==> r == 100) && (1 <= limit <= 500 ==> r == limit)
            && (limit > 500 ==> r == 500)
  {
    if limit <= 0 then 100 else Min(limit, 500)
  }

  /** A row is due while it neither passed nor was skipped, from the time of its next check
      on, unless the handoff it was filed under is unknown or has ended. */
  lemma DueIff(s: State, id: ObjectiveId, now: Instant)
    requires id in s.objectives && id in s.owners
    ensures IsDue(s, id, now) <==>
              && s.objectives[id].status in {ObjectiveStatus.Pending, Fail, Undetermined}
              && (s.objectives[id].nextCheckAt == None || s.objectives[id].nextCheckAt.value <= now)
              && (s.owners[id] == ""
                  || (s.owners[id] in s.handoffs
                      && s.handoffs[s.owners[id]].status !in {HandoffStatus.Resolved, Cancelled,
                                                              HandoffStatus.Expired}))
  {
  }

  /** A recorded check puts its row off until its next check, and for good when it made the
      row pass or skipped it. */
  lemma DueAgainIff(s: State, v: Objective, result: ObjectiveStatus, next: Instant, later: Instant)
    requires RowsFiled(s) && v in s.versions
    ensures var t, id := Settle(s, RecordResult(s, Checked(v, result, Some(next)), Some(result))), IdOf(v);
            IsDue(t, id, later) <==>
              && next <= later && result != Skipped && !(result == Pass && v.passes + 1 >= v.needed)
              && (s.owners[id] == ""
                  || (s.owners[id] in s.handoffs
                      && s.handoffs[s.owners[id]].status !in {HandoffStatus.Resolved, Cancelled,
                                                              HandoffStatus.Expired}))
  {
    CheckIsRecorded(s, v, result, Some(next));
  }

  // ----- what a pass leaves in the event log

  /** What the checker answers for the rows in turn, or nothing where it raises. */
  type Answering = nat -> Option<ObjectiveStatus>

  predicate Heard(results: seq<ObjectiveStatus>, answers: Answering) {
    forall k :: 0 <= k < |results| ==> results[k] == if answers(k).None? then Undetermined else answers(k).value
  }

  lemma HeardOneMore(results: seq<ObjectiveStatus>, answers: Answering, result: ObjectiveStatus)
    requires Heard(results, answers)
    requires result == if answers(|results|).None? then Undetermined else answers(|results|).value
    ensures Heard(results + [result], answers)
  {
  }

  /** The results of the rows, recorded in order at the given places. */
  predicate Recorded(events: seq<Event>, due: seq<Objective>, results: seq<ObjectiveStatus>, at: seq<nat>,
                     next: Option<Instant>)
  {
    && |at| == |results| <= |due|
    && (forall k :: 0 <= k < |at| ==> at[k] < |events| && events[at[k]] == Check(due[k], results[k], next))
    && (forall j, k :: 0 <= j < k < |at| ==> at[j] < at[k])
  }

  lemma RecordedOneMore(events: seq<Event>, longer: seq<Event>, due: seq<Objective>, results: seq<ObjectiveStatus>,
                        at: seq<nat>, next: Option<Instant>, result: ObjectiveStatus)
    requires Recorded(events, due, results, at, next) && |results| < |due|
    requires events <= longer && |events| < |longer| && longer[|longer| - 1] == Check(due[|results|], result, next)
    ensures Recorded(longer, due, results + [result], at + [|longer| - 1], next)
  {
  }

  lemma RecordedLater(events: seq<Event>, longer: seq<Event>, due: seq<Objective>, results: seq<ObjectiveStatus>,
                      at: seq<nat>, next: Option<Instant>)
    requires Recorded(events, due, results, at, next) && events <= longer
    ensures Recorded(longer, due, results, at, next)
  {
  }

  /** A pass in progress: what was heard so far is counted, and recorded unless this is a
      dry run. */
  predicate CheckedSoFar(events: seq<Event>, due: seq<Objective>, answers: Answering, report: Report,
                         results: seq<ObjectiveStatus>, at: seq<nat>, dryRun: bool, next: Option<Instant>)
  {
    && report == CountAll(results, dryRun) && Heard(results, answers)
    && (!dryRun ==> Recorded(events, due, results, at, next))
  }

  lemma CheckedOneMore(events: seq<Event>, longer: seq<Event>, due: seq<Objective>, answers: Answering, report: Report,
                       results: seq<ObjectiveStatus>, at: seq<nat>, dryRun: bool, next: Option<Instant>,
                       result: ObjectiveStatus, counted: Report) returns (more: seq<ObjectiveStatus>, places: seq<nat>)
    requires counted == CountResult(report, result, dryRun)
    requires CheckedSoFar(events, due, answers, report, results, at, dryRun, next) && |results| < |due|
             && events <= longer
    requires result == if answers(|results|).None? then Undetermined else answers(|results|).value
    requires !dryRun ==> |events| < |longer| && longer[|longer| - 1] == Check(due[|results|], result, next)
    ensures |more| == |results| + 1 && CheckedSoFar(longer, due, answers, counted, more, places, dryRun, next)
  {
    more, places := results + [result], if dryRun then at else at + [|longer| - 1];
    CountOneMore(results, result, dryRun);
    HeardOneMore(results, answers, result);
    if !dryRun {
      RecordedOneMore(events, longer, due, results, at, next, result);
    }
  }

  /** How a decision on a handoff ends: it is missing or over, it is not satisfied, the
      store refuses to mark it or to resolve its case, or it is verified, with its case
      resolved or not. */
  datatype Verdict = Passed | Unsatisfied | MarkRefused | ResolveRefused | JustVerified | AlsoResolved {
    predicate Raises() {
      MarkRefused? || ResolveRefused?
    }

    predicate Verifies() {
      JustVerified? || AlsoResolved?
    }
  }

  /** A decision, with the places in the event log of its reads and writes. */
  datatype Decision = Decision(id: string, read: nat, look: nat, mark: nat, close: nat, verdict: Verdict)

  /** Everything a decision says is so in the log: the handoff as it was read, the
      objectives as they were looked at, and the store's answers where it wrote. */
  ghost predicate Decided(events: seq<Event>, d: Decision, now: Instant, autoResolve: bool) {
    && d.read <= |events|
    && (d.verdict.Passed? <==>
          d.id !in Run(events[..d.read]).db.handoffs
          || Run(events[..d.read]).db.handoffs[d.id].status in
               {Verified, HandoffStatus.Resolved, Cancelled, HandoffStatus.Expired})
    && (!d.verdict.Passed? ==> LookTaken(events, d))
    && (!d.verdict.Passed? && !d.verdict.Unsatisfied? ==> MarkTried(events, d, now))
    && (d.verdict.JustVerified? ==> !autoResolve)
    && (d.verdict.ResolveRefused? || d.verdict.AlsoResolved? ==> autoResolve && CloseTried(events, d, now))
  }

  ghost predicate LookTaken(events: seq<Event>, d: Decision) {
    && d.read <= d.look < |events| && events[d.look] == Assess(d.id)
    && (d.verdict.Unsatisfied? <==> !Clears(Run(events[..d.look]).db, d.id))
  }

  ghost predicate MarkTried(events: seq<Event>, d: Decision, now: Instant) {
    && d.look < d.mark < |events| && events[d.mark] == Mark(d.id, now)
    && (d.verdict.MarkRefused? <==> !MarkVerified(Run(events[..d.mark]).db, d.id, now).Done?)
  }

  ghost predicate CloseTried(events: seq<Event>, d: Decision, now: Instant)
    requires d.read <= |events|
  {
    && d.id in Run(events[..d.read]).db.handoffs
    && var caseId := Run(events[..d.read]).db.handoffs[d.id].caseId;
       && d.mark < d.close < |events| && events[d.close] == ResolveCase(caseId, d.id, now)
       && (d.verdict.AlsoResolved? <==> Resolve(Run(events[..d.close]).db, caseId, d.id, caseId, now).Done?)
  }

  lemma DecidedLater(events: seq<Event>, longer: seq<Event>, d: Decision, now: Instant, autoResolve: bool)
    requires Decided(events, d, now, autoResolve) && events <= longer
    ensures Decided(longer, d, now, autoResolve)
  {
    assert longer[..d.read] == events[..d.read];
    if !d.verdict.Passed? {
      assert longer[..d.look] == events[..d.look];
    }
    if !d.verdict.Passed? && !d.verdict.Unsatisfied? {
      assert longer[..d.mark] == events[..d.mark];
    }
    if d.verdict.ResolveRefused? || d.verdict.AlsoResolved? {
      assert longer[..d.close] == events[..d.close];
    }
  }

  ghost predicate AllDecided(events: seq<Event>, ds: seq<Decision>, now: Instant, autoResolve: bool) {
    forall i :: 0 <= i < |ds| ==> Decided(events, ds[i], now, autoResolve)
  }

  lemma DecidedOneMore(events: seq<Event>, longer: seq<Event>, ds: seq<Decision>, d: Decision, now: Instant,
                       autoResolve: bool)
    requires AllDecided(events, ds, now, autoResolve) && events <= longer && Decided(longer, d, now, autoResolve)
    ensures AllDecided(longer, ds + [d], now, autoResolve)
  {
    forall i | 0 <= i < |ds| ensures Decided(longer, ds[i], now, autoResolve) {
      DecidedLater(events, longer, ds[i], now, autoResolve);
    }
  }

  /** The decisions of a pass go through the handoffs in order, each once, to the end
      unless one raises; only the last one may. */
  predicate Covers(ds: seq<Decision>, touched: set<string>, raised: bool) {
    && (forall i, j :: 0 <= i < j < |ds| ==> Before(ds[i].id, ds[j].id))
    && (forall i :: 0 <= i < |ds| ==> ds[i].id in touched && (ds[i].verdict.Raises() ==> raised && i == |ds| - 1))
    && (raised ==> ds != [] && ds[|ds| - 1].verdict.Raises())
    && (forall id :: id in touched && (forall i :: 0 <= i < |ds| ==> ds[i].id != id) ==>
          raised && forall i :: 0 <= i < |ds| ==> Before(ds[i].id, id))
  }

  /** What is decided so far, and what remains: all of it comes later in the order. */
  predicate Remaining(ds: seq<Decision>, touched: set<string>, rest: set<string>) {
    && rest <= touched
    && (forall i, j :: 0 <= i < j < |ds| ==> Before(ds[i].id, ds[j].id))
    && (forall i :: 0 <= i < |ds| ==> ds[i].id in touched && !ds[i].verdict.Raises())
    && (forall i, id :: 0 <= i < |ds| && id in rest ==> Before(ds[i].id, id))
    && (forall id :: id in touched && id !in rest ==> exists i :: 0 <= i < |ds| && ds[i].id == id)
  }

  lemma RemainingOneLess(ds: seq<Decision>, touched: set<string>, rest: set<string>, d: Decision)
    requires Remaining(ds, touched, rest) && d.id in rest && forall x :: x in rest && x != d.id ==> Before(d.id, x)
    ensures if d.verdict.Raises() then Covers(ds + [d], touched, true) else Remaining(ds + [d], touched, rest - {d.id})
  {
    var more := ds + [d];
    assert more[|ds|] == d;
    forall id | id in touched && id !in rest - {d.id} ensures exists i :: 0 <= i < |more| && more[i].id == id {
      if id != d.id {
        var i :| 0 <= i < |ds| && ds[i].id == id;
        assert more[i] == ds[i];
      }
    }
  }

  lemma NoneRemaining(ds: seq<Decision>, touched: set<string>)
    requires Remaining(ds, touched, {})
    ensures Covers(ds, touched, false)
  {
  }

  function VerifiedIn(ds: seq<Decision>): nat {
    if ds == [] then 0 else VerifiedIn(ds[..|ds| - 1]) + if ds[|ds| - 1].verdict.Verifies() then 1 else 0
  }

  function ResolvedIn(ds: seq<Decision>): nat {
    if ds == [] then 0 else ResolvedIn(ds[..|ds| - 1]) + if ds[|ds| - 1].verdict.AlsoResolved? then 1 else 0
  }

  function Verdicts(ds: seq<Decision>): seq<Verdict> {
    seq(|ds|, k requires 0 <= k < |ds| => ds[k].verdict)
  }

  /** The report counts the decisions that verified, and those that also resolved. */
  lemma {:induction false} DecisionsAddUp(ds: seq<Decision>)
    ensures var all := multiset(Verdicts(ds));
            VerifiedIn(ds) == all[JustVerified] + all[AlsoResolved] && ResolvedIn(ds) == all[AlsoResolved]
  {
    if ds != [] {
      var n := |ds| - 1;
      DecisionsAddUp(ds[..n]);
      assert Verdicts(ds) == Verdicts(ds[..n]) + [ds[n].verdict];
    }
  }

  /** What a decision adds to the report. */
  lemma InOneMore(ds: seq<Decision>, d: Decision)
    ensures VerifiedIn(ds + [d]) == VerifiedIn(ds) + if d.verdict.Verifies() then 1 else 0
    ensures ResolvedIn(ds + [d]) == ResolvedIn(ds) + if d.verdict.AlsoResolved? then 1 else 0
  {
    assert (ds + [d])[..|ds|] == ds;
  }

  /** The handoffs whose objectives a pass recorded. */
  method Touched(due: seq<Objective>) returns (touched: set<string>)
    ensures forall id :: id in touched <==> id != "" && exists i :: 0 <= i < |due| && due[i].handoffId == id
  {
    touched := {};
    for i := 0 to |due|
      invariant forall id :: id in touched <==> id != "" && exists k :: 0 <= k < i && due[k].handoffId == id
    {
      if due[i].handoffId != "" {
        touched := touched + {due[i].handoffId};
      }
    }
  }

  class CaseVerifier {
    const store: LedgerStore
    const enabled: bool
    const dryRun: bool
    const autoResolve: bool
    const intervalSeconds: int

    constructor (store: LedgerStore, enabled: bool, dryRun: bool, autoResolve: bool, intervalSeconds: int)
      ensures this.store == store && this.enabled == enabled && this.dryRun == dryRun
      ensures this.autoResolve == autoResolve && this.intervalSeconds == intervalSeconds
    {
      this.store, this.enabled, this.dryRun := store, enabled, dryRun;
      this.autoResolve, this.intervalSeconds := autoResolve, intervalSeconds;
    }

    /** The first due rows in checking order, up to the limit. */
    method ListDue(now: Instant, limit: int) returns (due: seq<Objective>)
      requires store.Valid()
      ensures |due| == Min(BoundedLimit(limit), |DueRows(store.Db(), now)|) && Ordered(due, SoonerCheck)
      ensures forall x :: x in due ==> x in DueRows(store.Db(), now) && x in store.versions
      ensures forall x, y :: x in due && y in DueRows(store.Db(), now) && y !in due ==> !SoonerCheck(y, x)
    {
      var all := set id | id in store.objectives && IsDueNow(id, now) :: store.objectives[id];
      assert all == DueRows(store.Db(), now);
      store.RowsOnRecord();
      SoonerIsStrict(all);
      var rows := Arrange(all, SoonerCheck);
      var n := Min(BoundedLimit(limit), |rows|);
      due := rows[..n];
      assert forall k :: 0 <= k < n ==> rows[k] in due;
      forall x, y | x in due && y in all && y !in due ensures !SoonerCheck(y, x) {
        var i :| 0 <= i < n && rows[i] == x;
        var j :| 0 <= j < |rows| && rows[j] == y;
      }
    }

    predicate IsDueNow(id: ObjectiveId, now: Instant)
      reads store
    {
      && id in store.objectives && id in store.owners
      && !store.objectives[id].status.Pass? && !store.objectives[id].status.Skipped?
      && (store.objectives[id].nextCheckAt.None? || store.objectives[id].nextCheckAt.value <= now)
      && (store.owners[id] == ""
          || (store.owners[id] in store.handoffs && !Terminal(store.handoffs[store.owners[id]].status)))
    }

    /** A row is checked again after the interval, which is a second at least. */
    function NextCheck(now: Instant): (at: Instant)
      ensures at >= now + 1_000_000 && at >= now + intervalSeconds * 1_000_000
      ensures at == now + 1_000_000 || at == now + intervalSeconds * 1_000_000
    {
      now + Seconds(Max(1, intervalSeconds))
    }

    /** One turn of the first loop: the check takes its time, and its result is
        written over the row that was listed. An exception counts as undetermined. */
    method CheckOne(v: Objective, now: Instant, before: Report, answer: Option<ObjectiveStatus>)
      returns (report: Report, result: ObjectiveStatus)
      requires store.Valid() && v in store.versions
      modifies store
      ensures store.Valid() && old(store.events) <= store.events && old(store.versions) <= store.versions
      ensures !dryRun ==> |old(store.events)| < |store.events|
                          && store.events[|store.events| - 1] == Check(v, result, Some(NextCheck(now)))
      ensures report == CountResult(before, result, dryRun)
      ensures result == if answer.None? then Undetermined else answer.value
    {
      store.Interfere();
      match answer {
        case None => result := Undetermined;
        case Some(status) => result := status;
      }
      report := before.(checked := before.checked + 1);
      if result.Pass? {
        report := report.(passed := report.passed + 1);
      } else if result.Fail? {
        report := report.(failed := report.failed + 1);
      } else {
        report := report.(unknown := report.unknown + 1);
      }
      if !dryRun {
        store.RecordCheck(v, result, Some(NextCheck(now)));
        report := report.(updated := report.updated + 1);
      }
    }

    /** The first loop of a pass: check, count, and record unless this is a dry run. */
    method CheckAll(due: seq<Objective>, now: Instant, answers: Answering)
      returns (report: Report, ghost results: seq<ObjectiveStatus>, ghost at: seq<nat>)
      requires store.Valid() && forall v :: v in due ==> v in store.versions
      modifies store
      ensures store.Valid() && old(store.events) <= store.events && |results| == |due|
      ensures CheckedSoFar(store.events, due, answers, report, results, at, dryRun, Some(NextCheck(now)))
    {
      report, results, at := Report(0, 0, 0, 0, 0, 0, 0), [], [];
      for i := 0 to |due|
        invariant store.Valid() && old(store.events) <= store.events && |results| == i
        invariant CheckedSoFar(store.events, due, answers, report, results, at, dryRun, Some(NextCheck(now)))
        invariant forall v :: v in due ==> v in store.versions
      {
        report, results, at := CheckNext(due, due[i], now, answers(i), answers, report, results, at);
      }
    }

    method CheckNext(ghost due: seq<Objective>, v: Objective, now: Instant, answer: Option<ObjectiveStatus>,
                     ghost answers: Answering, before: Report, ghost soFar: seq<ObjectiveStatus>,
                     ghost places: seq<nat>)
      returns (report: Report, ghost results: seq<ObjectiveStatus>, ghost at: seq<nat>)
      requires store.Valid() && |soFar| < |due| && due[|soFar|] == v && v in store.versions
               && answer == answers(|soFar|)
      requires CheckedSoFar(store.events, due, answers, before, soFar, places, dryRun, Some(NextCheck(now)))
      modifies store
      ensures store.Valid() && old(store.events) <= store.events && old(store.versions) <= store.versions
      ensures |results| == |soFar| + 1
      ensures CheckedSoFar(store.events, due, answers, report, results, at, dryRun, Some(NextCheck(now)))
    {
      ghost var earlier := store.events;
      var result;
      report, result := CheckOne(v, now, before, answer);
      results, at := CheckedOneMore(earlier, store.events, due, answers, before, soFar, places, dryRun,
                                    Some(NextCheck(now)), result, report);
    }

    /** One pass: list what is due, check and record each row, then decide on every
        handoff touched. `raised` is the exception a refused write raises. */
    method RunOnce(now: Instant, limit: int, answers: Answering)
      returns (report: Report, raised: bool, ghost due: seq<Objective>, ghost results: seq<ObjectiveStatus>,
               ghost at: seq<nat>, ghost touched: set<string>, ghost ds: seq<Decision>)
      requires store.Valid()
      modifies store
      ensures store.Valid() && old(store.events) <= store.events
      ensures !enabled ==> store.events == old(store.events) && due == [] && !raised
      ensures !enabled || dryRun ==> report.updated == 0 && ds == [] && !raised
      ensures forall v :: v in due ==> v in DueRows(old(store.Db()), now)
      ensures enabled ==>
                |due| == Min(BoundedLimit(limit), |DueRows(old(store.Db()), now)|) && Ordered(due, SoonerCheck)
      ensures |results| == |due| && Heard(results, answers)
              && report == CountAll(results, dryRun).(verified := VerifiedIn(ds), resolved := ResolvedIn(ds))
      ensures enabled && !dryRun ==> Recorded(store.events, due, results, at, Some(NextCheck(now)))
      ensures forall id :: id in touched <==> id != "" && exists i :: 0 <= i < |due| && due[i].handoffId == id
      ensures AllDecided(store.events, ds, now, autoResolve) && (enabled && !dryRun ==> Covers(ds, touched, raised))
    {
      report, raised := Report(0, 0, 0, 0, 0, 0, 0), false;
      due, results, at, touched, ds := [], [], [], {}, [];
      if !enabled {
        return;
      }
      var rows := ListDue(now, limit);
      due := rows;
      report, results, at := CheckAll(rows, now, answers);
      CountsAddUp(results, dryRun);
      var handoffIds := Touched(rows);
      touched := handoffIds;
      if dryRun {
        return;
      }
      ghost var checked := store.events;
      report, raised, ds := DecideAll(handoffIds, now, report);
      RecordedLater(checked, store.events, rows, results, at, Some(NextCheck(now)));
    }

    method DecideAll(handoffIds: set<string>, now: Instant, before: Report)
      returns (report: Report, raised: bool, ghost ds: seq<Decision>)
      requires store.Valid() && before.verified == before.resolved == 0
      modifies store
      ensures store.Valid() && old(store.events) <= store.events
      ensures report == before.(verified := VerifiedIn(ds), resolved := ResolvedIn(ds))
      ensures AllDecided(store.events, ds, now, autoResolve) && Covers(ds, handoffIds, raised)
    {
      report, raised, ds := before, false, [];
      var touched := handoffIds;
      while touched != {}
        invariant store.Valid() && old(store.events) <= store.events
        invariant report == before.(verified := VerifiedIn(ds), resolved := ResolvedIn(ds))
        invariant AllDecided(store.events, ds, now, autoResolve) && Remaining(ds, handoffIds, touched)
        decreases touched
      {
        ghost var smallest := LeastExists(touched);
        var id :| id in touched && forall x :: x in touched && x != id ==> Before(id, x);
        ghost var d;
        report, raised, d := DecideOne(id, now, report, ds);
        RemainingOneLess(ds, handoffIds, touched, d);
        ds := ds + [d];
        touched := touched - {id};
        if raised {
          return;
        }
      }
      NoneRemaining(ds, handoffIds);
    }

    method DecideOne(id: string, now: Instant, before: Report, ghost soFar: seq<Decision>)
      returns (report: Report, raised: bool, ghost d: Decision)
      requires store.Valid() && AllDecided(store.events, soFar, now, autoResolve)
      requires before.verified == VerifiedIn(soFar) && before.resolved == ResolvedIn(soFar)
      modifies store
      ensures store.Valid() && old(store.events) <= store.events
      ensures report == before.(verified := VerifiedIn(soFar + [d]), resolved := ResolvedIn(soFar + [d]))
      ensures d.id == id && (raised <==> d.verdict.Raises()) && AllDecided(store.events, soFar + [d], now, autoResolve)
    {
      ghost var earlier := store.events;
      var verified, resolved;
      verified, resolved, raised, d := MaybeVerifyHandoff(id, now);
      DecidedOneMore(earlier, store.events, soFar, d, now, autoResolve);
      InOneMore(soFar, d);
      report := before.(verified := before.verified + if verified then 1 else 0,
                        resolved := before.resolved + if resolved then 1 else 0);
    }

    /** The decision on one handoff: as it was read, nothing is done if it is missing or
        over; then other writers act, its objectives are looked at, and if they clear it
        the store is asked to mark it, and to resolve its case if that is automatic. */
    method MaybeVerifyHandoff(id: string, now: Instant)
      returns (verified: bool, resolved: bool, raised: bool, ghost d: Decision)
      requires store.Valid()
      modifies store
      ensures store.Valid() && old(store.events) <= store.events
      ensures d.id == id && d.read == |old(store.events)| && Decided(store.events, d, now, autoResolve)
      ensures (verified <==> d.verdict.Verifies()) && (resolved <==> d.verdict.AlsoResolved?)
      ensures raised <==> d.verdict.Raises()
    {
      verified, resolved, raised := false, false, false;
      ghost var start := store.events;
      assert start[..|start|] == start;
      d := Decision(id, |start|, 0, 0, 0, Passed);
      if id !in store.handoffs || Over(store.handoffs[id].status) {
        return;
      }
      var caseId := store.handoffs[id].caseId;
      var clears;
      ghost var look;
      clears, look := TakeLook(id);
      assert store.events[..|start|] == start;
      if !clears {
        d := Decision(id, |start|, look, 0, 0, Unsatisfied);
        return;
      }
      verified, resolved, raised, d := MarkCleared(id, caseId, now, Decision(id, |start|, look, 0, 0, JustVerified));
    }

    /** The handoff as it was read, and the look that cleared it. */
    ghost predicate Cleared(events: seq<Event>, d: Decision, caseId: string) {
      && d.read <= d.look < |events| && events[d.look] == Assess(d.id) && Clears(Run(events[..d.look]).db, d.id)
      && d.id in Run(events[..d.read]).db.handoffs && !Over(Run(events[..d.read]).db.handoffs[d.id].status)
      && Run(events[..d.read]).db.handoffs[d.id].caseId == caseId
    }

    lemma ClearedLater(events: seq<Event>, longer: seq<Event>, d: Decision, caseId: string)
      requires Cleared(events, d, caseId) && events <= longer
      ensures Cleared(longer, d, caseId)
    {
      assert longer[..d.read] == events[..d.read] && longer[..d.look] == events[..d.look];
    }

    /** The objectives of a handoff are read, after other writers had their turn. */
    method TakeLook(id: string) returns (clears: bool, ghost at: nat)
      requires store.Valid() && id in store.handoffs
      modifies store
      ensures store.Valid() && |old(store.events)| <= at && |store.events| == at + 1
              && old(store.events) <= store.events
      ensures store.events[at] == Assess(id) && clears == Clears(Run(store.events[..at]).db, id)
      ensures clears ==> id in store.cleared
    {
      ghost var start := store.events;
      store.Interfere();
      RunsGrow(start, store.events);
      ghost var looked := store.events;
      at := |looked|;
      clears := store.AssessHandoff(id);
      assert store.events[..at] == looked;
    }

    /** The look cleared the handoff: mark it, and resolve its case if that is automatic. */
    method MarkCleared(id: string, caseId: string, now: Instant, ghost so: Decision)
      returns (verified: bool, resolved: bool, raised: bool, ghost d: Decision)
      requires store.Valid() && id in store.cleared && so.id == id && Cleared(store.events, so, caseId)
      modifies store
      ensures store.Valid() && old(store.events) <= store.events
      ensures d.id == id && d.read == so.read && Decided(store.events, d, now, autoResolve)
      ensures (verified <==> d.verdict.Verifies()) && (resolved <==> d.verdict.AlsoResolved?)
      ensures raised <==> d.verdict.Raises()
    {
      ghost var start := store.events;
      store.Interfere();
      RunsGrow(start, store.events);
      ghost var mark := |store.events|;
      var marked := Marked(id, now);
      ClearedLater(start, store.events, so, caseId);
      if !marked {
        d := so.(mark := mark, verdict := MarkRefused);
        return false, false, true, d;
      }
      if !autoResolve {
        d := so.(mark := mark, verdict := JustVerified);
        return true, false, false, d;
      }
      resolved, d := CloseCase(id, caseId, now, so.(mark := mark));
      verified, raised := resolved, !resolved;
    }

    method CloseCase(id: string, caseId: string, now: Instant, ghost so: Decision)
      returns (resolved: bool, ghost d: Decision)
      requires store.Valid() && so.id == id && Cleared(store.events, so, caseId) && autoResolve
      requires so.look < so.mark < |store.events| && store.events[so.mark] == Mark(id, now)
      requires MarkVerified(Run(store.events[..so.mark]).db, id, now).Done?
      modifies store
      ensures store.Valid() && old(store.events) <= store.events
      ensures d.id == id && d.read == so.read && Decided(store.events, d, now, true)
      ensures d.verdict == if resolved then AlsoResolved else ResolveRefused
    {
      ghost var start := store.events;
      store.Interfere();
      ghost var close := |store.events|;
      resolved := Resolved(caseId, id, now);
      ClearedLater(start, store.events, so, caseId);
      assert store.events[..so.mark] == start[..so.mark];
      d := so.(close := close, verdict := if resolved then AlsoResolved else ResolveRefused);
    }

    method Marked(id: string, now: Instant) returns (done: bool)
      requires store.Valid() && id in store.cleared
      modifies store
      ensures store.Valid() && store.events == old(store.events) + [Mark(id, now)]
      ensures store.events[..|old(store.events)|] == old(store.events)
      ensures done <==> MarkVerified(Run(old(store.events)).db, id, now).Done?
    {
      store.Log(Mark(id, now));
      var reply := store.MarkHandoffVerified(id, now);
      done := reply.Stored?;
    }

    method Resolved(caseId: string, id: string, now: Instant) returns (done: bool)
      requires store.Valid()
      modifies store
      ensures store.Valid() && store.events == old(store.events) + [ResolveCase(caseId, id, now)]
      ensures store.events[..|old(store.events)|] == old(store.events)
      ensures done <==> Resolve(Run(old(store.events)).db, caseId, id, caseId, now).Done?
    {
      store.Log(ResolveCase(caseId, id, now));
      var reply := store.ResolveCaseWithOutcome(caseId, id, caseId, now);
      done := reply.Stored?;
    }
  }

  predicate Over(status: HandoffStatus) {
    status.Verified? || Terminal(status)
  }

  /** A decision that verifies leaves the handoff verified where it was marked, after a
      look that cleared it. */
  lemma VerifiedWhereMarked(events: seq<Event>, d: Decision, now: Instant, autoResolve: bool)
    requires Decided(events, d, now, autoResolve) && d.verdict in {JustVerified, AlsoResolved}
    ensures d.look < d.mark < |events| && Clears(Run(events[..d.look]).db, d.id)
    ensures HasStatus(Run(events[..d.mark + 1]), d.id, Verified)
  {
    RunStep(events, d.look);
    assert events[..d.look + 1] <= events[..d.mark];
    RunsGrow(events[..d.look + 1], events[..d.mark]);
    RunStep(events, d.mark);
  }

  /** A decision raises exactly when the store refused to mark a handoff the look had
      cleared, or, where that is automatic, to resolve its case. */
  lemma RaisesIff(events: seq<Event>, d: Decision, now: Instant, autoResolve: bool)
    requires Decided(events, d, now, autoResolve)
    ensures d.verdict.Raises() <==>
              && d.verdict != Passed && d.look < d.mark < |events| && Clears(Run(events[..d.look]).db, d.id)
              && (!MarkVerified(Run(events[..d.mark]).db, d.id, now).Done?
                  || (&& autoResolve && d.mark < d.close < |events| && d.id in Run(events[..d.read]).db.handoffs
                      && var c := Run(events[..d.read]).db.handoffs[d.id].caseId;
                         !Resolve(Run(events[..d.close]).db, c, d.id, c, now).Done?))
  {
  }
}
