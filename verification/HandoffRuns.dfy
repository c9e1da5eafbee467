/** Whole runs of the handoff ledger: every interleaving of openings, loop
    updates, verification checks, verifier decisions and case writes. */
module HandoffRuns {
  import opened Types
  import opened Lhp
  import opened Ledger

  /** The ledger, and the handoffs some verifier has at some time found satisfied
      (a verifier reads the objectives and marks the handoff in two transactions). */
  datatype World = World(db: State, cleared: set<string>)

  datatype Event =
    | OpenHandoff(h: Handoff, objectives: seq<Objective>, caseStatus: Option<CaseStatus>)
    | UpdateHandoff(u: Update, override: Option<HandoffStatus>, updateCaseStatus: Option<CaseStatus>,
                    caseHandoff: Option<HandoffStatus>)
    | DefineObjective(o: Objective)
    | Check(checked: Objective, result: ObjectiveStatus, next: Option<Instant>)
    | Skip(skipped: Objective)
    | Assess(assessed: string)
    | Mark(marked: string, markedAt: Instant)
    | ResolveCase(caseId: string, handoffId: string, resolvedAt: Instant)
    | WriteCase(written: string, row: LedgerCase)

  function Settle(s: State, o: Outcome): State {
    if o.Done? then o.state else s
  }

  ghost function Step(s: State, cleared: set<string>, e: Event): State {
    match e
    case OpenHandoff(h, objectives, caseStatus) => Settle(s, Open(s, h, objectives, caseStatus))
    case UpdateHandoff(u, o, cs, ch) => Settle(s, Append(s, u, o, cs, ch))
    case DefineObjective(o) =>
      if o.caseId in s.cases then Upsert(s, o) else s
    case Check(v, result, next) =>
      if v in s.versions then Settle(s, RecordResult(s, Checked(v, result, next), Some(result))) else s
    case Skip(v) =>
      if v in s.versions && v.status.Pending? then Settle(s, RecordResult(s, SkippedRow(v), None)) else s
    case Assess(_) => s
    case Mark(id, now) => if id in cleared then Settle(s, MarkVerified(s, id, now)) else s
    case ResolveCase(c, h, now) => Settle(s, Resolve(s, c, h, c, now))
    case WriteCase(c, row) => s.(cases := s.cases[c := row])
  }

  ghost function Apply(w: World, e: Event): World {
    World(Step(w.db, w.cleared, e),
          if e.Assess? && Clears(w.db, e.assessed) then w.cleared + {e.assessed} else w.cleared)
  }

  function Empty(): World {
    World(State(map[], map[], map[], map[], map[], [], map[], map[], {}), {})
  }

  ghost function Run(events: seq<Event>): World {
    if events == [] then Empty() else Apply(Run(events[..|events| - 1]), events[|events| - 1])
  }

  lemma RunStep(events: seq<Event>, i: nat)
    requires i < |events|
    ensures Run(events[..i + 1]) == Apply(Run(events[..i]), events[i])
  {
    assert events[..i + 1][..i] == events[..i];
  }

  lemma {:induction false} DefineFrame(s: State, h: Handoff, objectives: seq<Objective>)
    ensures var t := Define(s, h, objectives);
            t.cases == s.cases && t.handoffs == s.handoffs && t.updates == s.updates && t.events == s.events
  {
    if objectives != [] {
      DefineFrame(s, h, objectives[..|objectives| - 1]);
    }
  }

  // ----- statuses

  predicate SameIdentity(a: Handoff, b: Handoff) {
    a.id == b.id && a.key == b.key && SameWork(a, b)
  }

  predicate Along(a: Handoff, b: Handoff) {
    SameIdentity(a, b) && (a.status == b.status || b.status in Successors(a.status))
  }

  lemma OpenKeepsHandoffs(s: State, h: Handoff, objectives: seq<Objective>, caseStatus: Option<CaseStatus>, id: string)
    requires id in s.handoffs
    ensures var t := Settle(s, Open(s, h, objectives, caseStatus)); id in t.handoffs && t.handoffs[id] == s.handoffs[id]
  {
    DefineFrame(s.(handoffs := s.handoffs[h.id := h]), h, objectives);
  }

  lemma UpdateMovesAlong(s: State, u: Update, override: Option<HandoffStatus>, caseStatus: Option<CaseStatus>,
                         caseHandoff: Option<HandoffStatus>, id: string)
    requires id in s.handoffs
    ensures var t := Settle(s, Append(s, u, override, caseStatus, caseHandoff));
            id in t.handoffs && Along(s.handoffs[id], t.handoffs[id])
  {
  }

  /** One step moves a stored handoff along the transition table or not at all, and
      never changes what it is; a new handoff appears as it was opened. */
  lemma HandoffStep(w: World, e: Event, id: string)
    requires id in w.db.handoffs
    ensures id in Apply(w, e).db.handoffs
    ensures var a, b := w.db.handoffs[id], Apply(w, e).db.handoffs[id];
            SameIdentity(a, b) && (a.status == b.status || b.status in Successors(a.status))
  {
    match e
    case OpenHandoff(h, objectives, caseStatus) => OpenKeepsHandoffs(w.db, h, objectives, caseStatus, id);
    case UpdateHandoff(u, o, cs, ch) => UpdateMovesAlong(w.db, u, o, cs, ch, id);
    case DefineObjective(_) =>
    case Check(_, _, _) =>
    case Skip(_) =>
    case Assess(_) =>
    case Mark(_, _) =>
    case ResolveCase(_, _, _) =>
    case WriteCase(_, _) =>
  }

  lemma NewHandoff(w: World, e: Event, id: string)
    requires id !in w.db.handoffs && id in Apply(w, e).db.handoffs
    ensures e.OpenHandoff? && e.h.id == id && Apply(w, e).db.handoffs == w.db.handoffs[id := e.h]
    ensures !Answered(w.db, e.h)
  {
    match e
    case OpenHandoff(h, objectives, _) => DefineFrame(w.db.(handoffs := w.db.handoffs[h.id := h]), h, objectives);
    case UpdateHandoff(u, o, cs, ch) =>
    case DefineObjective(_) =>
    case Check(_, _, _) =>
    case Skip(_) =>
    case Assess(_) =>
    case Mark(_, _) =>
    case ResolveCase(_, _, _) =>
    case WriteCase(_, _) =>
  }

  ghost predicate HasStatus(w: World, id: string, status: HandoffStatus) {
    id in w.db.handoffs && w.db.handoffs[id].status == status
  }

  lemma TerminalStep(w: World, e: Event, id: string, status: HandoffStatus)
    requires HasStatus(w, id, status) && Terminal(status)
    ensures HasStatus(Apply(w, e), id, status)
  {
    HandoffStep(w, e, id);
  }

  /** Resolved, cancelled and expired are absorbing in every run. */
  lemma {:induction false} TerminalAbsorbs(events: seq<Event>, i: nat, j: nat, id: string, status: HandoffStatus)
    requires i <= j <= |events| && Terminal(status) && HasStatus(Run(events[..i]), id, status)
    ensures HasStatus(Run(events[..j]), id, status)
  {
    if i < j {
      TerminalAbsorbs(events, i, j - 1, id, status);
      TerminalStep(Run(events[..j - 1]), events[j - 1], id, status);
      RunStep(events, j - 1);
    }
  }

  /** No update from any loop, with or without a status override, moves a handoff
      into verified or resolved. */
  lemma UpdateNeverVerifies(w: World, e: Event, id: string)
    requires e.UpdateHandoff? && id in w.db.handoffs
    ensures VerifierOnly(Apply(w, e).db.handoffs[id].status) ==> Apply(w, e).db.handoffs[id] == w.db.handoffs[id]
  {
    HandoffStep(w, e, id);
  }

  predicate OpensRequested(events: seq<Event>) {
    forall i :: 0 <= i < |events| && events[i].OpenHandoff? ==> events[i].h.status.Requested?
  }

  lemma EnteredStep(w: World, e: Event, id: string, status: HandoffStatus) returns (before: HandoffStatus)
    requires HasStatus(Apply(w, e), id, status) && !status.Requested?
    requires e.OpenHandoff? ==> e.h.status.Requested?
    ensures HasStatus(w, id, before) && (before == status || status in Successors(before))
  {
    if id !in w.db.handoffs {
      NewHandoff(w, e, id);
    }
    HandoffStep(w, e, id);
    before := w.db.handoffs[id].status;
  }

  /** A status other than the initial one was entered, earlier in the run, from a
      status the table leads from. */
  lemma {:induction false} EnteredFrom(events: seq<Event>, j: nat, id: string, status: HandoffStatus)
    returns (i: nat, before: HandoffStatus)
    requires j <= |events| && OpensRequested(events) && !status.Requested? && HasStatus(Run(events[..j]), id, status)
    ensures i < j && HasStatus(Run(events[..i]), id, before) && status in Successors(before)
  {
    RunStep(events, j - 1);
    i := j - 1;
    before := EnteredStep(Run(events[..i]), events[i], id, status);
    if before == status {
      i, before := EnteredFrom(events, i, id, status);
    }
  }

  lemma ImplementedFrom(events: seq<Event>, j: nat, id: string) returns (i: nat)
    requires j <= |events| && OpensRequested(events) && HasStatus(Run(events[..j]), id, Implemented)
    ensures i < j && HasStatus(Run(events[..i]), id, InProgress)
  {
    var before;
    i, before := EnteredFrom(events, j, id, Implemented);
    if before == ChangePlanned {
      i, before := EnteredFrom(events, i, id, ChangePlanned);
    }
  }

  /** Every run that resolves a handoff took it through in-progress, then
      implemented, then verified, in that order. */
  lemma ResolvedWentThrough(events: seq<Event>, n: nat, id: string) returns (i: nat, j: nat, k: nat)
    requires n <= |events| && OpensRequested(events) && HasStatus(Run(events[..n]), id, HandoffStatus.Resolved)
    ensures i < j < k < n
    ensures HasStatus(Run(events[..i]), id, InProgress)
    ensures HasStatus(Run(events[..j]), id, Implemented)
    ensures HasStatus(Run(events[..k]), id, Verified)
  {
    var before;
    k, before := EnteredFrom(events, n, id, HandoffStatus.Resolved);
    j, before := EnteredFrom(events, k, id, Verified);
    i := ImplementedFrom(events, j, id);
  }

  // ----- uniqueness

  /** At most one live handoff per piece of work, and one per idempotency key. */
  ghost predicate Unique(s: State) {
    && NamedByKey(s.handoffs)
    && forall a, b :: a in s.handoffs && b in s.handoffs && a != b ==>
         && s.handoffs[a].key != s.handoffs[b].key
         && !(SameWork(s.handoffs[a], s.handoffs[b]) && !Terminal(s.handoffs[a].status)
              && !Terminal(s.handoffs[b].status))
  }

  lemma ApplyKeepsUnique(w: World, e: Event)
    requires Unique(w.db)
    ensures Unique(Apply(w, e).db)
  {
    var s, t := w.db, Apply(w, e).db;
    forall a | a in s.handoffs
      ensures a in t.handoffs && SameIdentity(s.handoffs[a], t.handoffs[a])
      ensures Terminal(s.handoffs[a].status) ==> Terminal(t.handoffs[a].status)
    {
      HandoffStep(w, e, a);
    }
    forall a | a in t.handoffs && a !in s.handoffs
      ensures e.OpenHandoff? && e.h.id == a && t.handoffs == s.handoffs[a := e.h] && !Answered(s, e.h)
    {
      NewHandoff(w, e, a);
    }
  }

  /** In every reachable ledger the uniqueness rules hold. */
  lemma {:induction false} RunUnique(events: seq<Event>)
    ensures Unique(Run(events).db)
  {
    if events != [] {
      RunUnique(events[..|events| - 1]);
      ApplyKeepsUnique(Run(events[..|events| - 1]), events[|events| - 1]);
    }
  }

  // ----- duplicate updates

  predicate Duplicate(w: World, e: Event) {
    e.UpdateHandoff? && (e.u.source, e.u.externalId) in w.db.updates
  }

  lemma UpdatesGrow(w: World, e: Event, key: UpdateId)
    requires key in w.db.updates
    ensures key in Apply(w, e).db.updates && Apply(w, e).db.updates[key] == w.db.updates[key]
  {
    if e.OpenHandoff? {
      DefineFrame(w.db.(handoffs := w.db.handoffs[e.h.id := e.h]), e.h, e.objectives);
    }
  }

  /** Once an update is accepted, any later delivery under the same source and
      external id, whatever it carries, is a duplicate. */
  lemma {:induction false} AcceptedStaysAccepted(events: seq<Event>, i: nat, j: nat, key: UpdateId)
    requires i <= j <= |events| && key in Run(events[..i]).db.updates
    ensures key in Run(events[..j]).db.updates
  {
    if i < j {
      AcceptedStaysAccepted(events, i, j - 1, key);
      UpdatesGrow(Run(events[..j - 1]), events[j - 1], key);
      RunStep(events, j - 1);
    }
  }

  /** `longer` is `events` with duplicates of accepted updates inserted anywhere. */
  ghost predicate WithDuplicates(events: seq<Event>, longer: seq<Event>)
    decreases |longer|
  {
    if longer == [] then events == []
    else
      var last, rest := longer[|longer| - 1], longer[..|longer| - 1];
      || (Duplicate(Run(events), last) && WithDuplicates(events, rest))
      || (events != [] && events[|events| - 1] == last && WithDuplicates(events[..|events| - 1], rest))
  }

  /** Handoffs, cases, objectives and events are those of the run without the duplicates. */
  lemma {:induction false} DuplicatesAreInvisible(events: seq<Event>, longer: seq<Event>)
    requires WithDuplicates(events, longer)
    ensures Run(longer) == Run(events)
    decreases |longer|
  {
    if longer != [] {
      var last, rest := longer[|longer| - 1], longer[..|longer| - 1];
      if Duplicate(Run(events), last) && WithDuplicates(events, rest) {
        DuplicatesAreInvisible(events, rest);
      } else {
        DuplicatesAreInvisible(events[..|events| - 1], rest);
      }
    }
  }
}
