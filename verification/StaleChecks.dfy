/** Runs in which a handoff is verified although its checks do not bear it out: two
    checkers read one row and the later write starts from an older count, or a check
    that read an older definition of its row writes that definition back. */
module StaleChecks {
  import opened Types
  import opened Lhp
  import opened Ledger
  import opened HandoffRuns
  import opened VerifierRuns

  const ROW: ObjectiveId := ("case", "clear")
  const OTHER: ObjectiveId := ("case", "other")

  /** The objective rows of a ledger, with their history. */
  datatype Rows = Rows(
    objectives: map<ObjectiveId, Objective>, owners: map<ObjectiveId, string>,
    history: map<ObjectiveId, seq<ObjectiveStatus>>, defined: map<ObjectiveId, Definition>, versions: set<Objective>)

  const NONE := Rows(map[], map[], map[], map[], {})

  function RowsOf(s: State): Rows {
    Rows(s.objectives, s.owners, s.history, s.defined, s.versions)
  }

  function Put(l: Rows, o: Objective): Rows {
    Rows(l.objectives[IdOf(o) := o], l.owners[IdOf(o) := o.handoffId], l.history[IdOf(o) := []],
         l.defined[IdOf(o) := DefinitionOf(o)], l.versions + {o})
  }

  function Tested(l: Rows, v: Objective, result: ObjectiveStatus): Rows {
    var o := Checked(v, result, None);
    l.(objectives := l.objectives[IdOf(v) := o], versions := l.versions + {o},
       history := l.history[IdOf(v) := (if IdOf(v) in l.history then l.history[IdOf(v)] else []) + [result]])
  }

  /** A ledger with one case, before its handoff is opened. */
  ghost predicate Before(w: World, l: Rows) {
    "case" in w.db.cases && w.db.handoffs == map[] && w.db.updates == map[] && RowsOf(w.db) == l
  }

  /** The ledger once the handoff of the case is opened. */
  ghost predicate Stage(w: World, status: HandoffStatus, l: Rows) {
    && "case" in w.db.cases
    && "h" in w.db.handoffs && w.db.handoffs["h"].caseId == "case" && w.db.handoffs["h"].status == status
    && RowsOf(w.db) == l
  }

  ghost predicate Proper(events: seq<Event>) {
    Fair(events) && OpensRequested(events)
  }

  lemma Next(events: seq<Event>, e: Event)
    ensures Run(events + [e]) == Apply(Run(events), e)
    ensures Proper(events) && FreshEvent(e) && (e.OpenHandoff? ==> e.h.status.Requested?) ==> Proper(events + [e])
    ensures AllFromCurrentCounts(events) && FromCurrentCount(Run(events).db, e) ==> AllFromCurrentCounts(events + [e])
  {
    var n := |events|;
    assert (events + [e])[..n] == events;
    assert forall i :: 0 <= i < n ==> (events + [e])[..i] == events[..i];
  }

  lemma Started() returns (events: seq<Event>)
    ensures Before(Run(events), NONE)
    ensures Proper(events) && AllFromCurrentCounts(events)
  {
    Next([], WriteCase("case", LedgerCase(Investigating, None, "")));
    events := [] + [WriteCase("case", LedgerCase(Investigating, None, ""))];
  }

  function Ours(key: string, handoffId: string, needed: nat): Objective {
    Objective("case", key, handoffId, true, Pass, needed, Pending, 0, None, 0, key)
  }

  lemma Opened(events: seq<Event>, l: Rows, o: Objective) returns (more: seq<Event>)
    requires Before(Run(events), l) && Proper(events) && o.caseId == "case" && o.handoffId == "h" && Fresh(o)
    requires IdOf(o) in l.objectives ==>
               l.objectives[IdOf(o)].rowId == o.rowId && l.objectives[IdOf(o)].createdAt == o.createdAt
    ensures Stage(Run(more), Requested, Put(l, o)) && Run(more).db.updates == map[]
    ensures Proper(more) && (AllFromCurrentCounts(events) ==> AllFromCurrentCounts(more))
  {
    var h := Handoff("h", "case", Engineering, "work", "key", Requested, 0, 0);
    var s := Run(events).db;
    more := events + [OpenHandoff(h, [o], None)];
    Next(events, OpenHandoff(h, [o], None));
    DefinesOne(s.(handoffs := s.handoffs["h" := h]), h, o);
    DefineFrame(s.(handoffs := s.handoffs["h" := h]), h, [o]);
    assert !Answered(s, h);
    assert Fits([o][0], h);
    assert Open(s, h, [o], None).Done?;
  }

  lemma DefinesOne(s: State, h: Handoff, o: Objective)
    ensures Define(s, h, [o]) == Upsert(s, o.(handoffId := h.id))
  {
    assert [o][..0] == [];
    assert Define(s, h, []) == s;
  }

  lemma DefinedAgain(events: seq<Event>, status: HandoffStatus, l: Rows, o: Objective) returns (more: seq<Event>)
    requires Stage(Run(events), status, l) && Proper(events) && o.caseId == "case" && Fresh(o)
    requires IdOf(o) in l.objectives ==>
               l.objectives[IdOf(o)].rowId == o.rowId && l.objectives[IdOf(o)].createdAt == o.createdAt
    ensures Stage(Run(more), status, Put(l, o)) && Run(more).db.updates == Run(events).db.updates
    ensures Proper(more) && (AllFromCurrentCounts(events) ==> AllFromCurrentCounts(more))
  {
    more := events + [DefineObjective(o)];
    Next(events, DefineObjective(o));
  }

  lemma Moved(events: seq<Event>, from: HandoffStatus, to: HandoffStatus, external: string, l: Rows)
    returns (more: seq<Event>)
    requires Stage(Run(events), from, l) && Proper(events)
    requires to in Successors(from) && !VerifierOnly(to) && !Terminal(to)
             && (Engineering, external) !in Run(events).db.updates
    ensures Stage(Run(more), to, l) && Proper(more) && (AllFromCurrentCounts(events) ==> AllFromCurrentCounts(more))
    ensures Run(more).db.updates.Keys == Run(events).db.updates.Keys + {(Engineering, external)}
  {
    var update := UpdateHandoff(Update("h", "case", Engineering, external, to, 0), None, None, None);
    Next(events, update);
    more := events + [update];
  }

  lemma InWork(events: seq<Event>, l: Rows) returns (more: seq<Event>)
    requires Stage(Run(events), Accepted, l) && Proper(events) && Run(events).db.updates.Keys == {(Engineering, "1")}
    ensures Stage(Run(more), Implemented, l) && Proper(more)
            && (AllFromCurrentCounts(events) ==> AllFromCurrentCounts(more))
  {
    assert "1" != "2" && "1" != "3" && "2" != "3";
    more := Moved(events, Accepted, InProgress, "2", l);
    assert (Engineering, "3") !in Run(more).db.updates.Keys;
    more := Moved(more, InProgress, Implemented, "3", l);
  }

  lemma Implementing(events: seq<Event>, l: Rows) returns (more: seq<Event>)
    requires Stage(Run(events), Requested, l) && Proper(events) && Run(events).db.updates == map[]
    ensures Stage(Run(more), Implemented, l) && Proper(more)
            && (AllFromCurrentCounts(events) ==> AllFromCurrentCounts(more))
  {
    more := Moved(events, Requested, Accepted, "1", l);
    more := InWork(more, l);
  }

  lemma CheckedOnce(events: seq<Event>, l: Rows, v: Objective, result: ObjectiveStatus) returns (more: seq<Event>)
    requires Stage(Run(events), Implemented, l) && Proper(events) && v in l.versions && IdOf(v) in l.objectives
    ensures Stage(Run(more), Implemented, Tested(l, v, result)) && Proper(more)
    ensures AllFromCurrentCounts(events) && (result.Pass? ==> v.passes == l.objectives[IdOf(v)].passes) ==>
              AllFromCurrentCounts(more)
  {
    Next(events, Check(v, result, None));
    more := events + [Check(v, result, None)];
  }

  lemma Assessed(events: seq<Event>, l: Rows, id: ObjectiveId) returns (more: seq<Event>)
    requires Stage(Run(events), Implemented, l) && Proper(events) && Clearing(l, id)
    ensures Stage(Run(more), Implemented, l) && "h" in Run(more).cleared
    ensures Proper(more) && (AllFromCurrentCounts(events) ==> AllFromCurrentCounts(more))
  {
    Next(events, Assess("h"));
    more := events + [Assess("h")];
    assert Scoped(Run(events).db, "h", id);
    assert Clears(Run(events).db, "h");
  }

  /** The rows a verifier finds under the handoff, one of them required, are satisfied. */
  predicate Clearing(l: Rows, id: ObjectiveId) {
    && id in l.objectives && l.objectives[id].handoffId == "h" && l.objectives[id].required
    && l.objectives[id].caseId == "case"
    && forall x :: x in l.objectives && l.objectives[x].handoffId == "h" ==> Satisfied(l.objectives[x])
  }

  lemma Decided(events: seq<Event>, l: Rows, id: ObjectiveId) returns (more: seq<Event>)
    requires Stage(Run(events), Implemented, l) && Proper(events) && Clearing(l, id)
    ensures Stage(Run(more), Verified, l) && Proper(more)
            && (AllFromCurrentCounts(events) ==> AllFromCurrentCounts(more))
  {
    more := Assessed(events, l, id);
    Next(more, Mark("h", 0));
    more := more + [Mark("h", 0)];
  }

  /** A handoff ready for its checks, with one objective. */
  lemma Ready(o: Objective) returns (events: seq<Event>)
    requires o.caseId == "case" && o.handoffId == "h" && Fresh(o)
    ensures Stage(Run(events), Implemented, Put(NONE, o)) && Proper(events) && AllFromCurrentCounts(events)
  {
    events := Started();
    events := Opened(events, NONE, o);
    events := Implementing(events, Put(NONE, o));
  }

  function PassFailPass(): Rows {
    var v0 := Ours("clear", "h", 2);
    var v1 := Checked(v0, Pass, None);
    Tested(Tested(Tested(Put(NONE, v0), v0, Pass), v1, Fail), v1, Pass)
  }

  lemma PassFailPassClears()
    ensures Clearing(PassFailPass(), ROW) && ROW in PassFailPass().defined && PassFailPass().defined[ROW].needed == 2
    ensures ROW in PassFailPass().history && PassFailPass().history[ROW] == [Pass, Fail, Pass]
  {
    assert [] + [Pass] + [Fail] + [Pass] == [Pass, Fail, Pass];
  }

  /** The handoff needs two passes in a row; its checks were pass, fail, pass. */
  lemma StaleCheckVerifies() returns (events: seq<Event>)
    ensures Fair(events) && OpensRequested(events)
    ensures HasStatus(Run(events), "h", Verified) && Filed(Run(events).db, "h", ROW)
    ensures Run(events).db.defined[ROW].needed == 2
    ensures ROW in Run(events).db.history && Run(events).db.history[ROW] == [Pass, Fail, Pass]
  {
    var v0 := Ours("clear", "h", 2);
    var v1 := Checked(v0, Pass, None);
    events := Ready(v0);
    events := CheckedOnce(events, Put(NONE, v0), v0, Pass);
    events := CheckedOnce(events, Tested(Put(NONE, v0), v0, Pass), v1, Fail);
    events := CheckedOnce(events, Tested(Tested(Put(NONE, v0), v0, Pass), v1, Fail), v1, Pass);
    PassFailPassClears();
    events := Decided(events, PassFailPass(), ROW);
  }

  /** The objective is recorded without a handoff, filed under the handoff when that is
      opened, and joined there by another one. */
  function Refiled(): Rows {
    Put(Put(Put(NONE, Ours("clear", "", 1)), Ours("clear", "h", 1)), Ours("other", "h", 1))
  }

  lemma RefiledReady() returns (events: seq<Event>)
    ensures Stage(Run(events), Implemented, Refiled()) && Proper(events) && AllFromCurrentCounts(events)
  {
    events := Started();
    Next(events, DefineObjective(Ours("clear", "", 1)));
    events := events + [DefineObjective(Ours("clear", "", 1))];
    var l := Put(NONE, Ours("clear", "", 1));
    events := Opened(events, l, Ours("clear", "h", 1));
    events := DefinedAgain(events, Requested, Put(l, Ours("clear", "h", 1)), Ours("other", "h", 1));
    events := Implementing(events, Refiled());
  }

  function TakenOut(): Rows {
    Tested(Tested(Refiled(), Ours("clear", "", 1), Fail), Ours("other", "h", 1), Pass)
  }

  lemma TakenOutClears()
    ensures Clearing(TakenOut(), OTHER) && ROW in TakenOut().history && TakenOut().history[ROW] == [Fail]
    ensures ROW in TakenOut().objectives && ROW in TakenOut().owners && TakenOut().owners[ROW] == "h"
    ensures ROW in TakenOut().defined && TakenOut().defined[ROW].required
  {
    assert ROW != OTHER by {
      assert ROW.1[0] != OTHER.1[0];
    }
    assert [] + [Fail] == [Fail];
  }

  /** All counts are current, and the handoff is verified although a required objective
      filed under it only ever failed: the check that failed had read the row before it
      was filed under the handoff, and took it out again. */
  lemma StaleOwnerVerifies() returns (events: seq<Event>)
    ensures Fair(events) && OpensRequested(events) && AllFromCurrentCounts(events)
    ensures HasStatus(Run(events), "h", Verified) && Filed(Run(events).db, "h", ROW)
    ensures ROW in Run(events).db.history && Run(events).db.history[ROW] == [Fail]
  {
    events := RefiledReady();
    events := CheckedOnce(events, Refiled(), Ours("clear", "", 1), Fail);
    events := CheckedOnce(events, Tested(Refiled(), Ours("clear", "", 1), Fail), Ours("other", "h", 1), Pass);
    TakenOutClears();
    events := Decided(events, TakenOut(), OTHER);
  }

  /** All counts are current, and the handoff is verified after one pass although its
      objective was last defined to need two: the check had read the row before that. */
  lemma StaleNeedVerifies() returns (events: seq<Event>)
    ensures Fair(events) && OpensRequested(events) && AllFromCurrentCounts(events)
    ensures HasStatus(Run(events), "h", Verified) && Filed(Run(events).db, "h", ROW)
    ensures Run(events).db.defined[ROW].needed == 2
    ensures ROW in Run(events).db.history && Run(events).db.history[ROW] == [Pass]
  {
    var one, two := Ours("clear", "h", 1), Ours("clear", "h", 2);
    events := Ready(one);
    events := DefinedAgain(events, Implemented, Put(NONE, one), two);
    events := CheckedOnce(events, Put(Put(NONE, one), two), one, Pass);
    var l := Tested(Put(Put(NONE, one), two), one, Pass);
    assert l.history[ROW] == [Pass];
    events := Decided(events, l, ROW);
  }
}
