/** The ledger as an object: the store's handoff methods (app/cases/postgres.py),
    one transaction each. */
module LedgerStores {
  import opened Types
  import opened Ids
  import opened Lhp
  import opened Ledger
  import opened HandoffRuns
  import opened VerifierRuns

  /** `ORDER BY updated_at DESC, created_at DESC, handoff_id DESC LIMIT 1` over the
      live handoffs of a case. */
  method FindSurvivor(handoffs: map<string, Handoff>, caseId: string, except: string)
    returns (status: Option<HandoffStatus>)
    requires NamedByKey(handoffs)
    ensures status == SurvivorStatus(handoffs, caseId, except)
  {
    var best: Option<string> := None;
    var rest := handoffs.Keys;
    while rest != {}
      invariant rest <= handoffs.Keys
      invariant best.Some? ==> Survives(handoffs, caseId, except, best.value) && best.value !in rest
      invariant best.Some? ==>
                  forall o ::
                    o in handoffs && o !in rest && Survives(handoffs, caseId, except, o) && o != best.value ==>
                      NewerThan(handoffs[best.value], handoffs[o])
      invariant best.None? ==> forall o :: o in handoffs && o !in rest ==> !Survives(handoffs, caseId, except, o)
      decreases rest
    {
      var id :| id in rest;
      rest := rest - {id};
      var h := handoffs[id];
      if h.caseId == caseId && id != except && !Terminal(h.status) {
        if best.None? {
          best := Some(id);
        } else {
          NewerTotal(h, handoffs[best.value]);
          if NewerThan(h, handoffs[best.value]) {
            forall o | o in handoffs && o !in rest && Survives(handoffs, caseId, except, o) && o != id
              ensures NewerThan(h, handoffs[o])
            {
              if o != best.value {
                NewerTransitive(h, handoffs[best.value], handoffs[o]);
              }
            }
            best := Some(id);
          }
        }
      }
    }
    if best.Some? {
      assert IsSurvivor(handoffs, caseId, except, best.value);
      forall o | IsSurvivor(handoffs, caseId, except, o) ensures o == best.value {
        SurvivorUnique(handoffs, caseId, except, o, best.value);
      }
      status := Some(handoffs[best.value].status);
    } else {
      status := None;
    }
  }

  // ----- ordered reads of objectives

  predicate EarlierRow(a: Objective, b: Objective) {
    a.createdAt < b.createdAt || (a.createdAt == b.createdAt && Before(a.rowId, b.rowId))
  }

  predicate SoonerTime(a: Option<Instant>, b: Option<Instant>) {
    b.Some? && (a.None? || a.value < b.value)
  }

  /** `ORDER BY next_check_at, created_at, objective_id`; no time sorts first. */
  predicate SoonerCheck(a: Objective, b: Objective) {
    SoonerTime(a.nextCheckAt, b.nextCheckAt) || (a.nextCheckAt == b.nextCheckAt && EarlierRow(a, b))
  }

  /** Rows without a time are checked first, then the earliest; at the same time the older
      row goes first. */
  lemma CheckingOrder(a: Objective, b: Objective)
    ensures a.nextCheckAt == None && b.nextCheckAt != None ==> SoonerCheck(a, b) && !SoonerCheck(b, a)
    ensures a.nextCheckAt.Some? && b.nextCheckAt.Some? && a.nextCheckAt.value < b.nextCheckAt.value ==>
              SoonerCheck(a, b) && !SoonerCheck(b, a)
    ensures a.nextCheckAt == b.nextCheckAt && a.createdAt < b.createdAt ==> SoonerCheck(a, b) && !SoonerCheck(b, a)
    ensures a.nextCheckAt == b.nextCheckAt && a.createdAt == b.createdAt ==>
              (SoonerCheck(a, b) <==> Before(a.rowId, b.rowId))
  {
  }

  predicate StrictOrder(before: (Objective, Objective) -> bool, rows: set<Objective>) {
    && (forall a :: a in rows ==> !before(a, a))
    && (forall a, b, c :: a in rows && b in rows && c in rows && before(a, b) && before(b, c) ==> before(a, c))
  }

  lemma SoonerIsStrict(rows: set<Objective>)
    ensures StrictOrder(SoonerCheck, rows) && StrictOrder(EarlierRow, rows)
  {
    forall a | a in rows ensures !EarlierRow(a, a) && !SoonerCheck(a, a) {
      Irreflexive(a.rowId);
    }
    forall a, b, c | a in rows && b in rows && c in rows
      ensures EarlierRow(a, b) && EarlierRow(b, c) ==> EarlierRow(a, c)
      ensures SoonerCheck(a, b) && SoonerCheck(b, c) ==> SoonerCheck(a, c)
    {
      if Before(a.rowId, b.rowId) && Before(b.rowId, c.rowId) {
        Transitive(a.rowId, b.rowId, c.rowId);
      }
    }
  }

  lemma {:induction false} FirstExists(rows: set<Objective>, before: (Objective, Objective) -> bool)
    returns (first: Objective)
    requires rows != {} && StrictOrder(before, rows)
    ensures first in rows && forall x :: x in rows ==> !before(x, first)
    decreases rows
  {
    first :| first in rows;
    var one := first;
    var sooner := set x | x in rows && before(x, one);
    assert forall x :: x in rows && before(x, one) ==> x in sooner;
    if sooner != {} {
      assert one !in sooner;
      first := FirstExists(sooner, before);
      assert first in sooner && before(first, one);
      assert forall x :: x in rows && before(x, first) ==> before(x, one);
    }
  }

  predicate Ordered(rows: seq<Objective>, before: (Objective, Objective) -> bool) {
    forall i, j :: 0 <= i < j < |rows| ==> rows[i] != rows[j] && !before(rows[j], rows[i])
  }

  /** The rows of an ordered query: each once, none after one that sorts behind it. */
  method Arrange(rows: set<Objective>, before: (Objective, Objective) -> bool) returns (s: seq<Objective>)
    requires StrictOrder(before, rows)
    ensures (forall x :: x in s <==> x in rows) && |s| == |rows| && Ordered(s, before)
  {
    s := [];
    var rest := rows;
    while rest != {}
      invariant rest <= rows && |s| + |rest| == |rows| && Ordered(s, before)
      invariant forall x :: x in rows <==> x in rest || x in s
      invariant forall x, y :: x in s && y in rest ==> x != y && !before(y, x)
      decreases rest
    {
      ghost var least := FirstExists(rest, before);
      var first :| first in rest && forall x :: x in rest ==> !before(x, first);
      s := s + [first];
      rest := rest - {first};
    }
  }

  // ----- the store

  datatype Reply = Stored | Known | Declined(why: Refusal)

  function ReplyTo(o: Outcome): Reply {
    match o
    case Done(_) => Stored
    case Existing => Known
    case Refused(why) => Declined(why)
  }

  class LedgerStore {
    var cases: map<string, LedgerCase>
    var handoffs: map<string, Handoff>
    var updates: map<UpdateId, Update>
    var objectives: map<ObjectiveId, Objective>
    var owners: map<ObjectiveId, string>
    var entries: seq<Entry>
    ghost var history: map<ObjectiveId, seq<ObjectiveStatus>>
    ghost var defined: map<ObjectiveId, Definition>
    ghost var versions: set<Objective>
    ghost var cleared: set<string>
    ghost var events: seq<Event>

    ghost function Db(): State
      reads this
    {
      State(cases, handoffs, updates, objectives, owners, entries, history, defined, versions)
    }

    /** The store is where the run of its events leads. */
    ghost predicate Valid()
      reads this
    {
      World(Db(), cleared) == Run(events)
    }

    constructor ()
      ensures Valid() && events == []
    {
      cases, handoffs, updates, objectives, owners, entries := map[], map[], map[], map[], map[], [];
      history, defined, versions, cleared, events := map[], map[], {}, {}, [];
    }

    ghost method Log(e: Event)
      modifies this`events
      ensures events == old(events) + [e]
      ensures Run(events) == Apply(Run(old(events)), e)
    {
      events := events + [e];
      assert events[..|events| - 1] == old(events);
    }

    /** Other loops, checkers and operators write to the store. Callers know only
        that more events happened, and that no version of a row is forgotten. */
    method Interfere()
      requires Valid()
      modifies this
      ensures Valid() && old(events) <= events && old(versions) <= versions
    {
    }

    /** `SELECT … WHERE idempotency_key = … OR (same work AND status NOT IN terminal)`, oldest first. */
    method FindAnswer(h: Handoff) returns (found: Option<Handoff>)
      ensures found.Some? <==> Answered(Db(), h)
      ensures found.Some? ==> Answers(found.value, h) && found.value in handoffs.Values
      ensures found.Some? ==> forall id :: id in handoffs && Answers(handoffs[id], h) ==>
                found.value.createdAt <= handoffs[id].createdAt
    {
      found := None;
      var rest := handoffs.Keys;
      while rest != {}
        invariant rest <= handoffs.Keys
        invariant found.Some? ==> Answers(found.value, h) && Answered(Db(), h) && found.value in handoffs.Values
        invariant forall id :: id in handoffs && id !in rest && Answers(handoffs[id], h) ==>
                    found.Some? && found.value.createdAt <= handoffs[id].createdAt
        decreases rest
      {
        var id :| id in rest;
        rest := rest - {id};
        if Answers(handoffs[id], h) && (found.None? || handoffs[id].createdAt < found.value.createdAt) {
          found := Some(handoffs[id]);
        }
      }
    }

    /** The objectives filed under a handoff, in order of creation. */
    method ObjectivesOf(handoffId: string) returns (rows: seq<Objective>)
      ensures forall x :: x in rows <==>
                exists id :: id in objectives && id in owners && owners[id] == handoffId && objectives[id] == x
      ensures Ordered(rows, EarlierRow)
    {
      var owned := set id | id in objectives && id in owners && owners[id] == handoffId :: objectives[id];
      SoonerIsStrict(owned);
      rows := Arrange(owned, EarlierRow);
    }

    method UpsertObjective(o: Objective)
      modifies this`objectives, this`owners, this`history, this`defined, this`versions
      ensures Db() == Upsert(old(Db()), o)
    {
      var row := o;
      if IdOf(o) in objectives {
        row := row.(rowId := objectives[IdOf(o)].rowId, createdAt := objectives[IdOf(o)].createdAt);
      }
      objectives := objectives[IdOf(o) := row];
      owners := owners[IdOf(o) := o.handoffId];
      history := history[IdOf(o) := []];
      defined := defined[IdOf(o) := DefinitionOf(o)];
      versions := versions + {row};
    }

    /** Writes the requested objectives for a handoff, one upsert each. */
    method DefineObjectives(h: Handoff, requested: seq<Objective>)
      modifies this`objectives, this`owners, this`history, this`defined, this`versions
      ensures Db() == Define(old(Db()), h, requested)
    {
      for i := 0 to |requested|
        invariant Db() == Define(old(Db()), h, requested[..i])
      {
        assert requested[..i + 1][..i] == requested[..i];
        UpsertObjective(requested[i].(handoffId := h.id));
      }
      assert requested[..|requested|] == requested;
    }

    /** The handoff that answers the request is returned with its objectives: the
        stored one, or the one opened now. */
    method CreateHandoffWithObjectives(h: Handoff, requested: seq<Objective>, caseStatus: Option<CaseStatus>)
      returns (reply: Reply, answer: Option<Handoff>, rows: seq<Objective>)
      requires Valid()
      modifies this
      ensures Valid() && events == old(events) + [OpenHandoff(h, requested, caseStatus)]
      ensures reply == ReplyTo(Open(old(Db()), h, requested, caseStatus))
      ensures answer.None? <==> reply.Declined?
      ensures reply.Stored? ==> answer == Some(h)
      ensures reply.Known? ==> Answers(answer.value, h) && answer.value in handoffs.Values
                               && forall id :: id in handoffs && Answers(handoffs[id], h) ==>
                                    answer.value.createdAt <= handoffs[id].createdAt
      ensures answer.Some? ==> forall x :: x in rows <==>
                exists id :: id in objectives && id in owners && owners[id] == answer.value.id && objectives[id] == x
      ensures Ordered(rows, EarlierRow)
    {
      answer, rows := None, [];
      Log(OpenHandoff(h, requested, caseStatus));
      if |requested| > MAX_OBJECTIVES {
        return Declined(TooMany), None, [];
      }
      if h.caseId !in cases {
        return Declined(NotFound), None, [];
      }
      answer := FindAnswer(h);
      if answer.Some? {
        rows := ObjectivesOf(answer.value.id);
        return Known, answer, rows;
      }
      if h.id in handoffs {
        return Declined(Conflict), None, [];
      }
      if !(forall i :: 0 <= i < |requested| ==> Fits(requested[i], h)) {
        return Declined(Mismatch), None, [];
      }
      OpenRow(h, requested, caseStatus);
      rows := ObjectivesOf(h.id);
      reply, answer := Stored, Some(h);
    }

    method OpenRow(h: Handoff, requested: seq<Objective>, caseStatus: Option<CaseStatus>)
      requires Open(Db(), h, requested, caseStatus).Done?
      modifies this`handoffs, this`objectives, this`owners, this`history, this`defined, this`versions, this`cases
      modifies this`entries
      ensures Db() == Open(old(Db()), h, requested, caseStatus).state
    {
      DefineFrame(Db().(handoffs := handoffs[h.id := h]), h, requested);
      handoffs := handoffs[h.id := h];
      DefineObjectives(h, requested);
      var c := cases[h.caseId];
      if caseStatus.Some? {
        c := c.(status := caseStatus.value);
      }
      cases := cases[h.caseId := c.(handoffStatus := Some(h.status))];
      entries := entries + [HandoffOpened(h.id)];
    }

    /** The case row after an update moved its handoff to `target`. */
    static method MoveCase(found: LedgerCase, target: HandoffStatus, survivor: Option<HandoffStatus>,
                           caseStatus: Option<CaseStatus>, caseHandoff: Option<HandoffStatus>) returns (c: LedgerCase)
      ensures c == CaseAfter(found, target, survivor, caseStatus, caseHandoff)
    {
      c := found;
      if Terminal(target) {
        if !TerminalCase(c.status) {
          c := c.(status := if survivor.Some? then CaseStatusFor(survivor.value) else Investigating);
        }
        c := c.(handoffStatus := if survivor.Some? then survivor else Some(target));
      } else {
        if caseStatus.Some? {
          c := c.(status := caseStatus.value);
        }
        c := c.(handoffStatus := if caseHandoff.Some? then caseHandoff else Some(target));
      }
    }

    method AppendHandoffUpdate(u: Update, override: Option<HandoffStatus>,
                               caseStatus: Option<CaseStatus>, caseHandoff: Option<HandoffStatus>)
      returns (reply: Reply)
      requires Valid()
      modifies this
      ensures Valid() && events == old(events) + [UpdateHandoff(u, override, caseStatus, caseHandoff)]
      ensures reply == ReplyTo(Append(old(Db()), u, override, caseStatus, caseHandoff))
    {
      RunUnique(events);
      Log(UpdateHandoff(u, override, caseStatus, caseHandoff));
      if (u.source, u.externalId) in updates {
        return Known;
      }
      if u.caseId !in cases || u.handoffId !in handoffs {
        return Declined(NotFound);
      }
      var h := handoffs[u.handoffId];
      if h.caseId != u.caseId {
        return Declined(Mismatch);
      }
      var target := if override.Some? then override.value else u.status;
      if VerifierOnly(target) {
        return Declined(VerifierPathOnly);
      }
      if !Allowed(h.status, target, u.source) {
        return Declined(InvalidTransition);
      }
      ApplyUpdate(u, target, caseStatus, caseHandoff);
      reply := Stored;
    }

    method ApplyUpdate(u: Update, target: HandoffStatus, caseStatus: Option<CaseStatus>,
                       caseHandoff: Option<HandoffStatus>)
      requires NamedByKey(handoffs) && Append(Db(), u, Some(target), caseStatus, caseHandoff).Done?
      modifies this`updates, this`handoffs, this`cases, this`entries
      ensures Db() == Append(old(Db()), u, Some(target), caseStatus, caseHandoff).state
    {
      updates := updates[(u.source, u.externalId) := u];
      handoffs := handoffs[u.handoffId := handoffs[u.handoffId].(status := target, updatedAt := u.createdAt)];
      var survivor := FindSurvivor(handoffs, u.caseId, u.handoffId);
      var c := MoveCase(cases[u.caseId], target, survivor, caseStatus, caseHandoff);
      cases := cases[u.caseId := c];
      entries := entries + [UpdateRecorded(u)];
    }

    method MarkHandoffVerified(id: string, now: Instant) returns (reply: Reply)
      modifies this`handoffs, this`cases, this`entries
      ensures Db() == Settle(old(Db()), MarkVerified(old(Db()), id, now))
              && reply == ReplyTo(MarkVerified(old(Db()), id, now))
    {
      if id !in handoffs || handoffs[id].caseId !in cases {
        return Declined(NotFound);
      }
      var h := handoffs[id];
      if !Allowed(h.status, Verified, Noc) {
        return Declined(InvalidTransition);
      }
      handoffs := handoffs[id := h.(status := Verified, updatedAt := now)];
      cases := cases[h.caseId := cases[h.caseId].(status := VerificationPending, handoffStatus := Some(Verified))];
      entries := entries + [HandoffVerified(id)];
      reply := Stored;
    }

    method ResolveCaseWithOutcome(caseId: string, handoffId: string, outcomeCase: string, now: Instant)
      returns (reply: Reply)
      modifies this`handoffs, this`cases, this`entries
      ensures Db() == Settle(old(Db()), Resolve(old(Db()), caseId, handoffId, outcomeCase, now))
      ensures reply == ReplyTo(Resolve(old(Db()), caseId, handoffId, outcomeCase, now))
    {
      if caseId !in cases {
        return Declined(NotFound);
      }
      if outcomeCase != caseId {
        return Declined(Mismatch);
      }
      if handoffId != "" {
        if handoffId !in handoffs {
          return Declined(NotFound);
        }
        if !Allowed(handoffs[handoffId].status, HandoffStatus.Resolved, Noc) {
          return Declined(InvalidTransition);
        }
        handoffs := handoffs[handoffId := handoffs[handoffId].(status := HandoffStatus.Resolved, updatedAt := now)];
      }
      var c := cases[caseId];
      cases := cases[caseId := c.(status := CaseStatus.Resolved, resolutionReason := "lhp_outcome_verified")];
      entries := entries + [CaseResolved(caseId, handoffId)];
      reply := Stored;
    }

    /** Writes a whole row over the stored one, whatever that has become. */
    method UpdateObjectiveResult(o: Objective, ghost result: Option<ObjectiveStatus>) returns (reply: Reply)
      modifies this`objectives, this`history, this`versions, this`entries
      ensures Db() == Settle(old(Db()), RecordResult(old(Db()), o, result))
      ensures reply == ReplyTo(RecordResult(old(Db()), o, result))
    {
      var id := IdOf(o);
      if id !in objectives {
        return Declined(NotFound);
      }
      objectives := objectives[id := o];
      ghost var before := if id in history then history[id] else [];
      history := history[id := if result.Some? then before + [result.value] else before];
      versions := versions + {o};
      entries := entries + [ResultRecorded(id, o.status)];
      reply := Stored;
    }

    /** Every required objective of a handoff, and whether all are satisfied. */
    method AssessHandoff(id: string) returns (clears: bool)
      requires Valid() && id in handoffs
      modifies this`cleared, this`events
      ensures Valid() && events == old(events) + [Assess(id)]
      ensures clears == Clears(Db(), id)
      ensures clears ==> id in cleared
    {
      Log(Assess(id));
      var found, satisfied := AllSatisfied(id);
      clears := found && satisfied;
      cleared := if clears then cleared + {id} else cleared;
    }

    method AllSatisfied(id: string) returns (found: bool, satisfied: bool)
      requires id in handoffs
      ensures found <==> exists o :: Scoped(Db(), id, o)
      ensures satisfied <==> forall o :: Scoped(Db(), id, o) ==> Satisfied(objectives[o])
    {
      found, satisfied := false, true;
      var rest := objectives.Keys;
      while rest != {}
        invariant rest <= objectives.Keys
        invariant found <==> exists o :: o !in rest && Scoped(Db(), id, o)
        invariant satisfied <==> forall o :: o !in rest && Scoped(Db(), id, o) ==> Satisfied(objectives[o])
        decreases rest
      {
        var o :| o in rest;
        rest := rest - {o};
        var row := objectives[o];
        if row.handoffId == id && row.required && row.caseId == handoffs[id].caseId {
          assert Scoped(Db(), id, o);
          found := true;
          satisfied := satisfied && Satisfied(row);
        }
      }
    }

    // ----- the service's writes of objectives

    /** A check of the version `v`, written over whatever the row is by now. */
    method RecordCheck(v: Objective, result: ObjectiveStatus, next: Option<Instant>)
      requires Valid() && v in versions
      modifies this
      ensures Valid() && events == old(events) + [Check(v, result, next)] && old(versions) <= versions
    {
      RunFiled(events);
      Log(Check(v, result, next));
      var reply := UpdateObjectiveResult(Checked(v, result, next), Some(result));
      assert reply.Stored?;
    }

    method RecordSkip(v: Objective)
      requires Valid() && v in versions && v.status.Pending?
      modifies this
      ensures Valid() && events == old(events) + [Skip(v)] && old(versions) <= versions
    {
      RunFiled(events);
      Log(Skip(v));
      var reply := UpdateObjectiveResult(SkippedRow(v), None);
      assert reply.Stored?;
    }

    /** Stored rows are versions on record. */
    lemma RowsOnRecord()
      requires Valid()
      ensures forall id :: id in objectives ==> objectives[id] in versions
    {
      RunFiled(events);
    }

    /** Cancelling a handoff skips the pending objectives it finds under it, one
        write each, from rows that were read together. */
    method SkipCancelled(handoffId: string) returns (ghost skipped: seq<Objective>)
      requires Valid()
      modifies this
      ensures Valid() && old(events) <= events
      ensures forall v :: v in skipped <==> v in old(objectives).Values && v.handoffId == handoffId && v.status.Pending?
      ensures forall v :: v in skipped ==> Skip(v) in events
    {
      var found := set id | id in objectives && objectives[id].handoffId == handoffId
          && objectives[id].status.Pending? :: objectives[id];
      RowsOnRecord();
      var none := (a: Objective, b: Objective) => false;
      var rows := Arrange(found, none);
      skipped := rows;
      assert forall k :: 0 <= k < |rows| ==> rows[k] in found;
      for i := 0 to |rows|
        invariant Valid() && old(events) <= events
        invariant forall k :: 0 <= k < |rows| ==> rows[k] in versions && rows[k].status.Pending?
        invariant forall k :: 0 <= k < i ==> Skip(rows[k]) in events
      {
        Interfere();
        RecordSkip(rows[i]);
      }
    }
  }
}
