/** The handoff ledger of the store (app/cases/postgres.py): handoffs, their
    updates, verification objectives and the case fields they drive. Every
    operation is one transaction. */
module Ledger {
  import opened Types
  import opened Ids
  import opened Lhp

  const MAX_OBJECTIVES := 20

  datatype LedgerCase = LedgerCase(status: CaseStatus, handoffStatus: Option<HandoffStatus>, resolutionReason: string)

  datatype Handoff = Handoff(
    id: string, caseId: string, target: Loop, objectiveKey: string, key: string,
    status: HandoffStatus, createdAt: Instant, updatedAt: Instant)

  datatype Update = Update(
    handoffId: string, caseId: string, source: Loop, externalId: string,
    status: HandoffStatus, createdAt: Instant)

  datatype ObjectiveStatus = Pending | Pass | Fail | Undetermined | Skipped

  /** One stored version of an objective: the payload of its row. */
  datatype Objective = Objective(
    caseId: string, key: string, handoffId: string, required: bool, requiredStatus: ObjectiveStatus,
    needed: nat, status: ObjectiveStatus, passes: nat, nextCheckAt: Option<Instant>,
    createdAt: Instant, rowId: string)

  /** What an objective demands: the part of a row that only defining it sets. */
  datatype Definition = Definition(handoffId: string, required: bool, requiredStatus: ObjectiveStatus, needed: nat)

  function DefinitionOf(o: Objective): Definition {
    Definition(o.handoffId, o.required, o.requiredStatus, o.needed)
  }

  /** Rows are unique per case and key; a row keeps its identifier when it is redefined. */
  type ObjectiveId = (string, string)

  function IdOf(o: Objective): ObjectiveId {
    (o.caseId, o.key)
  }

  type UpdateId = (Loop, string)

  datatype Entry =
    | HandoffOpened(handoffId: string)
    | UpdateRecorded(update: Update)
    | HandoffVerified(handoffId: string)
    | CaseResolved(caseId: string, handoffId: string)
    | ResultRecorded(objective: ObjectiveId, status: ObjectiveStatus)

  /** `owners` is the handoff column of the objective rows, which results do not
      write. The rest is history: the checks of each row since it was defined, its
      last definition, and every version of every row, which a checker may still hold. */
  datatype State = State(
    cases: map<string, LedgerCase>,
    handoffs: map<string, Handoff>,
    updates: map<UpdateId, Update>,
    objectives: map<ObjectiveId, Objective>,
    owners: map<ObjectiveId, string>,
    events: seq<Entry>,
    history: map<ObjectiveId, seq<ObjectiveStatus>>,
    defined: map<ObjectiveId, Definition>,
    versions: set<Objective>)

  datatype Refusal = NotFound | Mismatch | TooMany | VerifierPathOnly | InvalidTransition | Conflict

  datatype Outcome = Done(state: State) | Existing | Refused(why: Refusal)

  predicate SameWork(a: Handoff, b: Handoff) {
    a.caseId == b.caseId && a.target == b.target && a.objectiveKey == b.objectiveKey
  }

  /** A stored handoff that answers a new request instead of a second one. */
  predicate Answers(stored: Handoff, h: Handoff) {
    stored.key == h.key || (SameWork(stored, h) && !Terminal(stored.status))
  }

  predicate Answered(s: State, h: Handoff) {
    exists id :: id in s.handoffs && Answers(s.handoffs[id], h)
  }

  predicate Fits(o: Objective, h: Handoff) {
    o.caseId == h.caseId && (o.handoffId == "" || o.handoffId == h.id)
  }

  /** A definition replaces the row of its case and key, but for the row's
      identifier and creation time. */
  function Redefined(s: State, o: Objective): Objective {
    if IdOf(o) in s.objectives
    then o.(rowId := s.objectives[IdOf(o)].rowId, createdAt := s.objectives[IdOf(o)].createdAt) else o
  }

  function Upsert(s: State, o: Objective): State {
    s.(objectives := s.objectives[IdOf(o) := Redefined(s, o)],
       owners := s.owners[IdOf(o) := o.handoffId],
       history := s.history[IdOf(o) := []],
       defined := s.defined[IdOf(o) := DefinitionOf(o)],
       versions := s.versions + {Redefined(s, o)})
  }

  function Define(s: State, h: Handoff, objectives: seq<Objective>): State {
    if objectives == [] then s
    else
      Upsert(Define(s, h, objectives[..|objectives| - 1]), objectives[|objectives| - 1].(handoffId := h.id))
  }

  function Open(s: State, h: Handoff, objectives: seq<Objective>, caseStatus: Option<CaseStatus>): Outcome {
    if |objectives| > MAX_OBJECTIVES then Refused(TooMany)
    else if h.caseId !in s.cases then Refused(NotFound)
    else if Answered(s, h) then Existing
    else if h.id in s.handoffs then Refused(Conflict)
    else if !(forall i :: 0 <= i < |objectives| ==> Fits(objectives[i], h)) then Refused(Mismatch)
    else
      var c := s.cases[h.caseId];
      var c' := c.(status := if caseStatus.Some? then caseStatus.value else c.status, handoffStatus := Some(h.status));
      var t := Define(s.(handoffs := s.handoffs[h.id := h]), h, objectives);
      Done(t.(cases := s.cases[h.caseId := c'], events := s.events + [HandoffOpened(h.id)]))
  }

  predicate NewerThan(a: Handoff, b: Handoff) {
    a.updatedAt > b.updatedAt
    || (a.updatedAt == b.updatedAt && (a.createdAt > b.createdAt || (a.createdAt == b.createdAt && Before(b.id, a.id))))
  }

  /** Of two handoffs the one that was updated last is the newer; then the one that was
      opened last. */
  lemma NewerOrder(a: Handoff, b: Handoff)
    ensures a.updatedAt > b.updatedAt ==> NewerThan(a, b) && !NewerThan(b, a)
    ensures a.updatedAt == b.updatedAt && a.createdAt > b.createdAt ==> NewerThan(a, b) && !NewerThan(b, a)
    ensures a.updatedAt == b.updatedAt && a.createdAt == b.createdAt ==> (NewerThan(a, b) <==> Before(b.id, a.id))
  {
  }

  predicate Survives(handoffs: map<string, Handoff>, caseId: string, except: string, id: string) {
    id in handoffs && handoffs[id].caseId == caseId && id != except && !Terminal(handoffs[id].status)
  }

  /** The handoff that still stands for a case when another one ends: the newest. */
  predicate IsSurvivor(handoffs: map<string, Handoff>, caseId: string, except: string, id: string) {
    && Survives(handoffs, caseId, except, id)
    && forall o :: o in handoffs && Survives(handoffs, caseId, except, o) && o != id ==>
          NewerThan(handoffs[id], handoffs[o])
  }

  predicate NamedByKey(handoffs: map<string, Handoff>) {
    forall id :: id in handoffs ==> handoffs[id].id == id
  }

  ghost function SurvivorStatus(handoffs: map<string, Handoff>, caseId: string, except: string): Option<HandoffStatus> {
    if exists id :: IsSurvivor(handoffs, caseId, except, id) then
      var id :| IsSurvivor(handoffs, caseId, except, id);
      Some(handoffs[id].status)
    else None
  }

  lemma SurvivorUnique(handoffs: map<string, Handoff>, caseId: string, except: string, a: string, b: string)
    requires NamedByKey(handoffs)
    requires IsSurvivor(handoffs, caseId, except, a) && IsSurvivor(handoffs, caseId, except, b)
    ensures a == b
  {
    if a != b {
      assert NewerThan(handoffs[a], handoffs[b]) && NewerThan(handoffs[b], handoffs[a]);
      Transitive(a, b, a);
      Irreflexive(a);
    }
  }

  /** Among the live handoffs of a case, if there are any, one is the newest. */
  lemma {:induction false} NewestExists(handoffs: map<string, Handoff>, caseId: string, ids: set<string>)
    returns (n: string)
    requires NamedByKey(handoffs) && ids != {}
    requires forall id :: id in ids ==> Live(handoffs, caseId, id)
    ensures n in ids && n in handoffs
    ensures forall o :: o in ids && o != n ==> o in handoffs && NewerThan(handoffs[n], handoffs[o])
    decreases ids
  {
    var first :| first in ids;
    var others := ids - {first};
    assert forall o :: o in ids ==> o == first || o in others;
    n := first;
    if others != {} {
      var next := NewestExists(handoffs, caseId, others);
      NewerTotal(handoffs[first], handoffs[next]);
      if NewerThan(handoffs[first], handoffs[next]) {
        forall o | o in others && o != next ensures NewerThan(handoffs[first], handoffs[o]) {
          NewerTransitive(handoffs[first], handoffs[next], handoffs[o]);
        }
      } else {
        n := next;
      }
    }
  }

  lemma NewerTotal(a: Handoff, b: Handoff)
    requires a.id != b.id
    ensures NewerThan(a, b) || NewerThan(b, a)
  {
    Total(a.id, b.id);
  }

  lemma NewerTransitive(a: Handoff, b: Handoff, c: Handoff)
    requires NewerThan(a, b) && NewerThan(b, c)
    ensures NewerThan(a, c)
  {
    if Before(c.id, b.id) && Before(b.id, a.id) {
      Transitive(c.id, b.id, a.id);
    }
  }

  predicate Live(handoffs: map<string, Handoff>, caseId: string, id: string) {
    id in handoffs && handoffs[id].caseId == caseId && !Terminal(handoffs[id].status)
  }

  /** The newest live handoff of a case. */
  predicate IsNewest(handoffs: map<string, Handoff>, caseId: string, id: string) {
    && Live(handoffs, caseId, id)
    && forall o :: o in handoffs && Live(handoffs, caseId, o) && o != id ==> NewerThan(handoffs[id], handoffs[o])
  }

  /** What an accepted update does to its case. */
  function CaseAfter(c: LedgerCase, target: HandoffStatus, survivor: Option<HandoffStatus>,
                     caseStatus: Option<CaseStatus>, caseHandoff: Option<HandoffStatus>): LedgerCase
  {
    if Terminal(target) then
      LedgerCase(
        if TerminalCase(c.status) then c.status
        else if survivor.Some? then CaseStatusFor(survivor.value) else Investigating,
        Some(if survivor.Some? then survivor.value else target), c.resolutionReason)
    else
      LedgerCase(if caseStatus.Some? then caseStatus.value else c.status,
                 Some(if caseHandoff.Some? then caseHandoff.value else target), c.resolutionReason)
  }

  function Target(u: Update, override: Option<HandoffStatus>): HandoffStatus {
    if override.Some? then override.value else u.status
  }

  ghost function Append(s: State, u: Update, override: Option<HandoffStatus>,
                        caseStatus: Option<CaseStatus>, caseHandoff: Option<HandoffStatus>): Outcome
  {
    if (u.source, u.externalId) in s.updates then Existing
    else if u.caseId !in s.cases || u.handoffId !in s.handoffs then Refused(NotFound)
    else if s.handoffs[u.handoffId].caseId != u.caseId then Refused(Mismatch)
    else if VerifierOnly(Target(u, override)) then Refused(VerifierPathOnly)
    else if !Allowed(s.handoffs[u.handoffId].status, Target(u, override), u.source) then Refused(InvalidTransition)
    else
      var h := s.handoffs[u.handoffId].(status := Target(u, override), updatedAt := u.createdAt);
      var handoffs := s.handoffs[u.handoffId := h];
      var survivor := SurvivorStatus(handoffs, u.caseId, u.handoffId);
      Done(s.(updates := s.updates[(u.source, u.externalId) := u],
              handoffs := handoffs,
              cases := s.cases[u.caseId := CaseAfter(s.cases[u.caseId], h.status, survivor, caseStatus, caseHandoff)],
              events := s.events + [UpdateRecorded(u)]))
  }

  /** With the ended handoff out of the running, the survivor is the newest live one. */
  lemma NewestSurvives(handoffs: map<string, Handoff>, caseId: string, ended: string) returns (newest: Option<string>)
    requires NamedByKey(handoffs) && ended in handoffs && Terminal(handoffs[ended].status)
    ensures newest.Some? ==> IsNewest(handoffs, caseId, newest.value)
                             && SurvivorStatus(handoffs, caseId, ended) == Some(handoffs[newest.value].status)
    ensures newest.None? ==>
              (forall id :: !Live(handoffs, caseId, id)) && SurvivorStatus(handoffs, caseId, ended) == None
  {
    var live := set id | id in handoffs && Live(handoffs, caseId, id);
    if live == {} {
      newest := None;
      assert forall id :: Live(handoffs, caseId, id) ==> id in live;
      assert forall id :: IsSurvivor(handoffs, caseId, ended, id) ==> Live(handoffs, caseId, id);
    } else {
      var n := NewestExists(handoffs, caseId, live);
      newest := Some(n);
      assert IsSurvivor(handoffs, caseId, ended, n);
      forall o | IsSurvivor(handoffs, caseId, ended, o) ensures o == n {
        SurvivorUnique(handoffs, caseId, ended, o, n);
      }
    }
  }

  /** When an update ends a handoff, its case is left to the newest handoff still
      live, if there is one: the case takes over its status, except that a case that
      is over keeps its own. Without one the case shows the ended handoff and goes
      back to investigation. */
  lemma EndedHandoffPassesOn(s: State, u: Update, override: Option<HandoffStatus>,
                             caseStatus: Option<CaseStatus>, caseHandoff: Option<HandoffStatus>)
    returns (newest: Option<string>)
    requires NamedByKey(s.handoffs) && Append(s, u, override, caseStatus, caseHandoff).Done?
             && Terminal(Target(u, override))
    ensures var t, was := Append(s, u, override, caseStatus, caseHandoff).state, s.cases[u.caseId];
            && u.caseId in t.cases && !Live(t.handoffs, u.caseId, u.handoffId)
            && (newest.Some? ==>
                  && IsNewest(t.handoffs, u.caseId, newest.value)
                  && t.cases[u.caseId].handoffStatus == Some(t.handoffs[newest.value].status)
                  && (!TerminalCase(was.status) ==>
                        t.cases[u.caseId].status == CaseStatusFor(t.handoffs[newest.value].status)))
            && (newest.None? ==>
                  && (forall id :: !Live(t.handoffs, u.caseId, id))
                  && t.cases[u.caseId].handoffStatus == Some(t.handoffs[u.handoffId].status)
                  && (!TerminalCase(was.status) ==> t.cases[u.caseId].status == Investigating))
            && (TerminalCase(was.status) ==> t.cases[u.caseId].status == was.status)
  {
    newest := NewestSurvives(Append(s, u, override, caseStatus, caseHandoff).state.handoffs, u.caseId, u.handoffId);
  }

  /** An update that does not end its handoff moves handoff and case: the case takes the
      statuses that were sent along, or keeps its own and shows the handoff's. */
  lemma UpdateMovesCase(s: State, u: Update, override: Option<HandoffStatus>,
                        caseStatus: Option<CaseStatus>, caseHandoff: Option<HandoffStatus>)
    requires Append(s, u, override, caseStatus, caseHandoff).Done? && !Terminal(Target(u, override))
    ensures var t, was := Append(s, u, override, caseStatus, caseHandoff).state, s.cases[u.caseId];
            && u.caseId in t.cases && u.handoffId in t.handoffs
            && t.handoffs[u.handoffId] ==
                 s.handoffs[u.handoffId].(status := if override.Some? then override.value
                                          else u.status, updatedAt := u.createdAt)
            && t.cases[u.caseId].status == (if caseStatus.Some? then caseStatus.value else was.status)
            && t.cases[u.caseId].handoffStatus ==
                 (if caseHandoff.Some? then caseHandoff else Some(t.handoffs[u.handoffId].status))
            && t.cases[u.caseId].resolutionReason == was.resolutionReason
            && (forall c :: c in s.cases && c != u.caseId ==> c in t.cases && t.cases[c] == s.cases[c])
            && (forall h :: h in s.handoffs && h != u.handoffId ==> h in t.handoffs && t.handoffs[h] == s.handoffs[h])
            && t.updates == s.updates[(u.source, u.externalId) := u] && t.objectives == s.objectives
  {
  }

  /** An update is stored exactly when it is new, names a known case and that case's own
      handoff, asks for neither verified nor resolved, and repeats the handoff's status or
      follows the table. */
  lemma UpdateStoredIff(s: State, u: Update, override: Option<HandoffStatus>,
                        caseStatus: Option<CaseStatus>, caseHandoff: Option<HandoffStatus>)
    ensures var target := if override.Some? then override.value else u.status;
            Append(s, u, override, caseStatus, caseHandoff).Done? <==>
              && (u.source, u.externalId) !in s.updates && u.caseId in s.cases && u.handoffId in s.handoffs
              && s.handoffs[u.handoffId].caseId == u.caseId
              && target != Verified && target != HandoffStatus.Resolved
              && (target == s.handoffs[u.handoffId].status || target in Successors(s.handoffs[u.handoffId].status))
  {
  }

  /** Marking moves an implemented handoff to verified and its case to awaiting
      verification; a handoff that is verified already stays so. */
  lemma MarkedIff(s: State, id: string, now: Instant)
    ensures MarkVerified(s, id, now).Done? <==>
              id in s.handoffs && s.handoffs[id].caseId in s.cases && s.handoffs[id].status in {Implemented, Verified}
    ensures MarkVerified(s, id, now).Done? ==>
              var t, c := MarkVerified(s, id, now).state, s.handoffs[id].caseId;
              && t.handoffs == s.handoffs[id := s.handoffs[id].(status := Verified, updatedAt := now)]
              && t.cases == s.cases[c := s.cases[c].(status := VerificationPending, handoffStatus := Some(Verified))]
              && t.objectives == s.objectives && t.updates == s.updates
  {
  }

  /** Resolution ends a case: with its handoff, which must be verified, or on its own. */
  lemma ResolvedIff(s: State, caseId: string, handoffId: string, outcomeCase: string, now: Instant)
    ensures Resolve(s, caseId, handoffId, outcomeCase, now).Done? <==>
              && caseId in s.cases && outcomeCase == caseId
              && (handoffId != "" ==>
                    handoffId in s.handoffs && s.handoffs[handoffId].status in {Verified, HandoffStatus.Resolved})
    ensures Resolve(s, caseId, handoffId, outcomeCase, now).Done? ==>
              var t := Resolve(s, caseId, handoffId, outcomeCase, now).state;
              && t.cases == s.cases[caseId := s.cases[caseId].(status := CaseStatus.Resolved,
                                                              resolutionReason := "lhp_outcome_verified")]
              && (handoffId == "" ==> t.handoffs == s.handoffs)
              && (handoffId != "" ==>
                    t.handoffs == s.handoffs[handoffId := s.handoffs[handoffId].(status := HandoffStatus.Resolved,
                                                                                 updatedAt := now)])
              && t.objectives == s.objectives && t.updates == s.updates
  {
  }

  function MarkVerified(s: State, id: string, now: Instant): Outcome {
    if id !in s.handoffs || s.handoffs[id].caseId !in s.cases then Refused(NotFound)
    else if !Allowed(s.handoffs[id].status, Verified, Noc) then Refused(InvalidTransition)
    else
      var h := s.handoffs[id].(status := Verified, updatedAt := now);
      var c := s.cases[h.caseId].(status := VerificationPending, handoffStatus := Some(Verified));
      Done(s.(handoffs := s.handoffs[id := h], cases := s.cases[h.caseId := c],
              events := s.events + [HandoffVerified(id)]))
  }

  function Resolve(s: State, caseId: string, handoffId: string, outcomeCase: string, now: Instant): Outcome {
    if caseId !in s.cases then Refused(NotFound)
    else if outcomeCase != caseId then Refused(Mismatch)
    else if handoffId != "" && handoffId !in s.handoffs then Refused(NotFound)
    else if handoffId != "" && !Allowed(s.handoffs[handoffId].status, HandoffStatus.Resolved, Noc)
        then Refused(InvalidTransition)
    else
      var handoffs := if handoffId == "" then s.handoffs
                      else
                        var h := s.handoffs[handoffId];
                        s.handoffs[handoffId := h.(status := HandoffStatus.Resolved, updatedAt := now)];
      var c := s.cases[caseId].(status := CaseStatus.Resolved, resolutionReason := "lhp_outcome_verified");
      Done(s.(handoffs := handoffs, cases := s.cases[caseId := c],
              events := s.events + [CaseResolved(caseId, handoffId)]))
  }

  /** A check result applied to the version of an objective that was read. */
  function Checked(o: Objective, result: ObjectiveStatus, next: Option<Instant>): Objective {
    if result.Pass? then
      o.(passes := o.passes + 1, status := if o.passes + 1 >= o.needed then Pass else Pending, nextCheckAt := next)
    else o.(passes := 0, status := result, nextCheckAt := next)
  }

  /** What cancelling a handoff writes over a pending objective that was read. */
  function SkippedRow(o: Objective): Objective {
    o.(status := Skipped, nextCheckAt := None)
  }

  /** Writing a whole objective back, with the result that produced it. No version
      is compared: whatever the row became since it was read is overwritten. */
  function RecordResult(s: State, o: Objective, result: Option<ObjectiveStatus>): Outcome {
    var id := IdOf(o);
    if id !in s.objectives then Refused(NotFound)
    else
      var h := if id in s.history then s.history[id] else [];
      Done(s.(objectives := s.objectives[id := o],
              history := s.history[id := if result.Some? then h + [result.value] else h],
              versions := s.versions + {o},
              events := s.events + [ResultRecorded(id, o.status)]))
  }

  // ----- what opening and results leave

  /** A handoff is opened exactly for a known case, with at most twenty objectives that
      belong to it, when no stored handoff has its key, does the same work and still lives,
      or has its id. */
  lemma OpenedIff(s: State, h: Handoff, objectives: seq<Objective>, caseStatus: Option<CaseStatus>)
    ensures Open(s, h, objectives, caseStatus).Done? <==>
              && |objectives| <= 20 && h.caseId in s.cases && h.id !in s.handoffs
              && (forall id :: id in s.handoffs ==>
                    var g := s.handoffs[id];
                    && g.key != h.key
                    && (g.caseId == h.caseId && g.target == h.target && g.objectiveKey == h.objectiveKey ==>
                          g.status in {HandoffStatus.Resolved, Cancelled, HandoffStatus.Expired}))
              && (forall i :: 0 <= i < |objectives| ==>
                    objectives[i].caseId == h.caseId && objectives[i].handoffId in {"", h.id})
  {
    assert Answered(s, h) ==> exists id :: id in s.handoffs && Answers(s.handoffs[id], h);
    assert forall id :: id in s.handoffs && Answers(s.handoffs[id], h) ==> Answered(s, h);
    assert forall i :: 0 <= i < |objectives| ==>
        (Fits(objectives[i], h) <==> objectives[i].caseId == h.caseId && objectives[i].handoffId in {"", h.id});
  }

  predicate Asks(objectives: seq<Objective>, id: ObjectiveId) {
    exists i :: 0 <= i < |objectives| && IdOf(objectives[i]) == id
  }

  predicate AskedOnce(objectives: seq<Objective>) {
    forall i, j :: 0 <= i < j < |objectives| ==> IdOf(objectives[i]) != IdOf(objectives[j])
  }

  /** An objective that is asked for is a row of the handoff, without checks, and with the
      identifier and creation time of the row it replaces. */
  predicate AskedFor(s: State, t: State, h: Handoff, o: Objective) {
    var id := IdOf(o);
    && id in t.objectives && id in t.owners && id in t.history && id in t.defined
    && t.owners[id] == h.id && t.history[id] == [] && t.objectives[id] in t.versions
    && t.defined[id] == Definition(h.id, o.required, o.requiredStatus, o.needed)
    && t.objectives[id] ==
         o.(handoffId := h.id,
            rowId := if id in s.objectives then s.objectives[id].rowId else o.rowId,
            createdAt := if id in s.objectives then s.objectives[id].createdAt else o.createdAt)
  }

  /** No other row is touched. */
  ghost predicate OthersKept(s: State, t: State, objectives: seq<Objective>) {
    forall id :: !Asks(objectives, id) ==>
      && (id in t.objectives <==> id in s.objectives) && (id in s.objectives ==> t.objectives[id] == s.objectives[id])
      && (id in t.owners <==> id in s.owners) && (id in s.owners ==> t.owners[id] == s.owners[id])
      && (id in t.history <==> id in s.history) && (id in s.history ==> t.history[id] == s.history[id])
  }

  lemma AsksOneMore(objectives: seq<Objective>, id: ObjectiveId)
    requires objectives != []
    ensures Asks(objectives, id)
            <==> Asks(objectives[..|objectives| - 1], id) || IdOf(objectives[|objectives| - 1]) == id
  {
    var n := |objectives| - 1;
    if Asks(objectives[..n], id) {
      var i :| 0 <= i < n && IdOf(objectives[..n][i]) == id;
      assert IdOf(objectives[i]) == id;
    }
    if Asks(objectives, id) && IdOf(objectives[n]) != id {
      var i :| 0 <= i < |objectives| && IdOf(objectives[i]) == id;
      assert objectives[..n][i] == objectives[i];
    }
  }

  lemma LastAskedFor(s: State, t: State, h: Handoff, o: Objective)
    requires IdOf(o) in t.objectives <==> IdOf(o) in s.objectives
    requires IdOf(o) in s.objectives ==> t.objectives[IdOf(o)] == s.objectives[IdOf(o)]
    ensures AskedFor(s, Upsert(t, o.(handoffId := h.id)), h, o)
  {
  }

  lemma StillAskedFor(s: State, t: State, h: Handoff, o: Objective, last: Objective)
    requires AskedFor(s, t, h, o) && IdOf(o) != IdOf(last)
    ensures AskedFor(s, Upsert(t, last), h, o)
  {
  }

  lemma StillKept(s: State, t: State, objectives: seq<Objective>, last: Objective, h: Handoff)
    requires objectives != [] && last == objectives[|objectives| - 1].(handoffId := h.id)
    requires OthersKept(s, t, objectives[..|objectives| - 1])
    ensures OthersKept(s, Upsert(t, last), objectives)
  {
    forall id | !Asks(objectives, id) ensures !Asks(objectives[..|objectives| - 1], id) && id != IdOf(last) {
      AsksOneMore(objectives, id);
    }
  }

  lemma {:induction false} DefineKeepsOthers(s: State, h: Handoff, objectives: seq<Objective>)
    ensures OthersKept(s, Define(s, h, objectives), objectives)
  {
    if objectives != [] {
      var n := |objectives| - 1;
      DefineKeepsOthers(s, h, objectives[..n]);
      StillKept(s, Define(s, h, objectives[..n]), objectives, objectives[n].(handoffId := h.id), h);
    }
  }

  lemma AskedOnceSplit(objectives: seq<Objective>, n: nat)
    requires AskedOnce(objectives) && n + 1 == |objectives|
    ensures AskedOnce(objectives[..n]) && !Asks(objectives[..n], IdOf(objectives[n]))
    ensures forall i :: 0 <= i < n ==> IdOf(objectives[i]) != IdOf(objectives[n])
  {
    forall i | 0 <= i < n ensures objectives[..n][i] == objectives[i] && IdOf(objectives[i]) != IdOf(objectives[n]) {
    }
  }

  lemma {:induction false} DefineDoes(s: State, h: Handoff, objectives: seq<Objective>, i: nat)
    requires AskedOnce(objectives) && i < |objectives|
    ensures AskedFor(s, Define(s, h, objectives), h, objectives[i])
  {
    var n := |objectives| - 1;
    var t := Define(s, h, objectives[..n]);
    AskedOnceSplit(objectives, n);
    if i < n {
      DefineDoes(s, h, objectives[..n], i);
      StillAskedFor(s, t, h, objectives[i], objectives[n].(handoffId := h.id));
    } else {
      DefineKeepsOthers(s, h, objectives[..n]);
      LastAskedFor(s, t, h, objectives[n]);
    }
  }

  lemma {:induction false} DefineTouchesRows(s: State, h: Handoff, objectives: seq<Objective>)
    ensures var t := Define(s, h, objectives);
            t.cases == s.cases && t.handoffs == s.handoffs && t.updates == s.updates && t.events == s.events
  {
    if objectives != [] {
      DefineTouchesRows(s, h, objectives[..|objectives| - 1]);
    }
  }

  /** Opening stores the handoff and its objectives, and shows the case with it. */
  lemma OpenDoes(s: State, h: Handoff, objectives: seq<Objective>, caseStatus: Option<CaseStatus>)
    requires Open(s, h, objectives, caseStatus).Done? && AskedOnce(objectives)
    ensures var t, c := Open(s, h, objectives, caseStatus).state, s.cases[h.caseId];
            && t.handoffs == s.handoffs[h.id := h] && t.updates == s.updates
            && t.cases == s.cases[h.caseId := LedgerCase(if caseStatus.Some? then caseStatus.value else c.status,
                                                         Some(h.status), c.resolutionReason)]
            && t.events == s.events + [HandoffOpened(h.id)]
            && (forall i :: 0 <= i < |objectives| ==> AskedFor(s, t, h, objectives[i])) && OthersKept(s, t, objectives)
  {
    var u := s.(handoffs := s.handoffs[h.id := h]);
    DefineKeepsOthers(u, h, objectives);
    DefineTouchesRows(u, h, objectives);
    var t := Open(s, h, objectives, caseStatus).state;
    forall i | 0 <= i < |objectives| ensures AskedFor(s, t, h, objectives[i]) {
      DefineDoes(u, h, objectives, i);
    }
  }

  /** A check overwrites its row with the version it read, counted on: a pass adds one and
      is enough at the number needed, anything else starts over and is itself the status. */
  lemma CheckIsRecorded(s: State, v: Objective, result: ObjectiveStatus, next: Option<Instant>)
    requires IdOf(v) in s.objectives
    ensures RecordResult(s, Checked(v, result, next), Some(result)).Done?
    ensures var t, id := RecordResult(s, Checked(v, result, next), Some(result)).state, IdOf(v);
            && id in t.objectives && id in t.history
            && t.objectives[id].passes == (if result == Pass then v.passes + 1 else 0)
            && t.objectives[id].status ==
                 (if result != Pass then result else if v.passes + 1 >= v.needed then Pass else ObjectiveStatus.Pending)
            && t.objectives[id] == v.(passes := t.objectives[id].passes, status := t.objectives[id].status,
                                      nextCheckAt := next)
            && t.history[id] == (if id in s.history then s.history[id] else []) + [result]
            && OnlyRow(s, t, id) && t.events == s.events + [ResultRecorded(id, t.objectives[id].status)]
  {
  }

  /** A skip overwrites its row with the version it read, and is no check. */
  lemma SkipIsRecorded(s: State, v: Objective)
    requires IdOf(v) in s.objectives
    ensures RecordResult(s, SkippedRow(v), None).Done?
    ensures var t, id := RecordResult(s, SkippedRow(v), None).state, IdOf(v);
            && id in t.objectives && id in t.history
            && t.objectives[id] == v.(status := Skipped, nextCheckAt := None)
            && t.history[id] == (if id in s.history then s.history[id] else [])
            && OnlyRow(s, t, id)
  {
  }

  ghost predicate OnlyRow(s: State, t: State, id: ObjectiveId) {
    && id in t.objectives && t.objectives == s.objectives[id := t.objectives[id]]
    && t.versions == s.versions + {t.objectives[id]}
    && t.cases == s.cases && t.handoffs == s.handoffs && t.updates == s.updates && t.owners == s.owners
    && t.defined == s.defined
    && (forall x :: x != id ==>
          (x in t.history <==> x in s.history) && (x in s.history ==> t.history[x] == s.history[x]))
  }

  predicate Satisfied(o: Objective) {
    o.status == o.requiredStatus && o.passes >= o.needed
  }

  predicate Scoped(s: State, handoffId: string, id: ObjectiveId) {
    id in s.objectives && s.objectives[id].handoffId == handoffId && s.objectives[id].required
    && handoffId in s.handoffs && s.objectives[id].caseId == s.handoffs[handoffId].caseId
  }

  /** The verifier's decision that a handoff may be marked verified. */
  ghost predicate Clears(s: State, handoffId: string) {
    && (exists id :: Scoped(s, handoffId, id))
    && (forall id :: Scoped(s, handoffId, id) ==> Satisfied(s.objectives[id]))
  }
}
