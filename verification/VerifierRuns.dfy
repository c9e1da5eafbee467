/** What a verified handoff proves about the checks recorded for it (app/cases/verifier.py).
    A checker reads a row, checks, and writes the whole row back; other checkers,
    the console and cancellations may write the same row in between. */
module VerifierRuns {
  import opened Types
  import opened Lhp
  import opened Ledger
  import opened HandoffRuns

  /** The number of passes since the last check that was not one. */
  function PassSuffix(history: seq<ObjectiveStatus>): nat {
    if history == [] || !history[|history| - 1].Pass? then 0
    else 1 + PassSuffix(history[..|history| - 1])
  }

  predicate EndsInPasses(history: seq<ObjectiveStatus>, count: nat) {
    |history| >= count && forall i :: |history| - count <= i < |history| ==> history[i].Pass?
  }

  lemma {:induction false} SuffixIsPasses(history: seq<ObjectiveStatus>, count: nat)
    ensures PassSuffix(history) >= count <==> EndsInPasses(history, count)
  {
    if count > 0 && history != [] {
      var n := |history| - 1;
      SuffixIsPasses(history[..n], count - 1);
      if history[n].Pass? && EndsInPasses(history[..n], count - 1) {
        forall i | |history| - count <= i < |history| ensures history[i].Pass? {
          assert i < n ==> history[..n][i].Pass?;
        }
      }
    }
  }

  lemma SuffixOneMore(history: seq<ObjectiveStatus>, result: ObjectiveStatus)
    ensures PassSuffix(history + [result]) == if result.Pass? then PassSuffix(history) + 1 else 0
  {
    assert (history + [result])[..|history|] == history;
  }

  // ----- rows and versions, in every run

  /** Rows are filed under their own case and key and are versions on record; the
      handoff column is that of the last definition. */
  ghost predicate RowsFiled(s: State) {
    && (forall id :: id in s.objectives ==>
          IdOf(s.objectives[id]) == id && s.objectives[id] in s.versions && id in s.history)
    && (forall id :: id in s.objectives ==>
          id in s.defined && id in s.owners && s.owners[id] == s.defined[id].handoffId)
    && (forall v :: v in s.versions ==> IdOf(v) in s.objectives)
  }

  lemma UpsertFiled(s: State, o: Objective)
    requires RowsFiled(s)
    ensures RowsFiled(Upsert(s, o))
  {
  }

  lemma {:induction false} DefineFiled(s: State, h: Handoff, objectives: seq<Objective>)
    requires RowsFiled(s)
    ensures RowsFiled(Define(s, h, objectives))
  {
    if objectives != [] {
      DefineFiled(s, h, objectives[..|objectives| - 1]);
      UpsertFiled(Define(s, h, objectives[..|objectives| - 1]), objectives[|objectives| - 1].(handoffId := h.id));
    }
  }

  lemma RecordFiled(s: State, o: Objective, result: Option<ObjectiveStatus>)
    requires RowsFiled(s)
    ensures RowsFiled(Settle(s, RecordResult(s, o, result)))
  {
  }

  predicate TouchesObjectives(e: Event) {
    e.OpenHandoff? || e.DefineObjective? || e.Check? || e.Skip?
  }

  lemma ObjectivesFrame(w: World, e: Event)
    requires !TouchesObjectives(e)
    ensures Apply(w, e).db.objectives == w.db.objectives && Apply(w, e).db.history == w.db.history
    ensures Apply(w, e).db.versions == w.db.versions
    ensures Apply(w, e).db.defined == w.db.defined && Apply(w, e).db.owners == w.db.owners
  {
  }

  /** A step rewrites objective rows in one of four ways, or not at all. */
  lemma ObjectiveStep(w: World, e: Event) returns (t: State)
    ensures t.objectives == Apply(w, e).db.objectives && t.history == Apply(w, e).db.history
    ensures t.versions == Apply(w, e).db.versions
    ensures t.defined == Apply(w, e).db.defined && t.owners == Apply(w, e).db.owners
    ensures match e
            case OpenHandoff(h, objectives, _) => t == Define(w.db, h, objectives) || t == w.db
            case DefineObjective(o) => t == Upsert(w.db, o) || t == w.db
            case Check(v, result, next) =>
              t == if v in w.db.versions
                  then Settle(w.db, RecordResult(w.db, Checked(v, result, next), Some(result))) else w.db
            case Skip(v) =>
              t == if v in w.db.versions && v.status.Pending?
                  then Settle(w.db, RecordResult(w.db, SkippedRow(v), None)) else w.db
            case _ => t == w.db
  {
    t := w.db;
    match e {
      case OpenHandoff(h, objectives, _) =>
        DefineSame(w.db, w.db.(handoffs := w.db.handoffs[h.id := h]), h, objectives);
        t := if Open(w.db, h, objectives, e.caseStatus).Done? then Define(w.db, h, objectives) else w.db;
      case DefineObjective(o) => t := if o.caseId in w.db.cases then Upsert(w.db, o) else w.db;
      case Check(v, result, next) =>
        t := if v in w.db.versions
            then Settle(w.db, RecordResult(w.db, Checked(v, result, next), Some(result))) else w.db;
      case Skip(v) =>
        t := if v in w.db.versions && v.status.Pending?
            then Settle(w.db, RecordResult(w.db, SkippedRow(v), None)) else w.db;
      case _ => ObjectivesFrame(w, e);
    }
  }

  /** Definitions look at the objective rows only. */
  lemma {:induction false} DefineSame(s: State, t: State, h: Handoff, objectives: seq<Objective>)
    requires s.objectives == t.objectives && s.history == t.history && s.versions == t.versions
    requires s.defined == t.defined && s.owners == t.owners
    ensures var a, b := Define(s, h, objectives), Define(t, h, objectives);
            && a.objectives == b.objectives && a.history == b.history && a.versions == b.versions
            && a.defined == b.defined && a.owners == b.owners
  {
    if objectives != [] {
      DefineSame(s, t, h, objectives[..|objectives| - 1]);
    }
  }

  lemma FiledStep(w: World, e: Event)
    requires RowsFiled(w.db)
    ensures RowsFiled(Apply(w, e).db)
  {
    var t := ObjectiveStep(w, e);
    match e {
      case OpenHandoff(h, objectives, _) => DefineFiled(w.db, h, objectives);
      case DefineObjective(o) => UpsertFiled(w.db, o);
      case Check(v, result, next) => RecordFiled(w.db, Checked(v, result, next), Some(result));
      case Skip(v) => RecordFiled(w.db, SkippedRow(v), None);
      case _ =>
    }
    assert RowsFiled(t);
  }

  lemma {:induction false} RunFiled(events: seq<Event>)
    ensures RowsFiled(Run(events).db)
  {
    if events != [] {
      RunFiled(events[..|events| - 1]);
      FiledStep(Run(events[..|events| - 1]), events[|events| - 1]);
    }
  }

  // ----- what a row says, in every run

  /** A freshly defined objective: pending, unchecked, at least one pass needed. */
  predicate Fresh(o: Objective) {
    o.status.Pending? && o.passes == 0 && o.needed >= 1
  }

  predicate FreshEvent(e: Event) {
    && (e.OpenHandoff? ==> forall i :: 0 <= i < |e.objectives| ==> Fresh(e.objectives[i]))
    && (e.DefineObjective? ==> Fresh(e.o))
  }

  predicate Fair(events: seq<Event>) {
    forall i :: 0 <= i < |events| ==> FreshEvent(events[i])
  }

  /** A version reads `pass` exactly when its own count reaches what it needs. */
  predicate Sound(o: Objective) {
    o.needed >= 1 && (o.passes >= o.needed <==> o.status.Pass?)
  }

  /** Every version is sound, and a row that reads `pass` was last written by a
      check that passed. */
  ghost predicate RowsSound(s: State) {
    && RowsFiled(s)
    && (forall v :: v in s.versions ==> Sound(v))
    && (forall id :: id in s.objectives && s.objectives[id].status.Pass? ==> EndsInPasses(s.history[id], 1))
  }

  lemma UpsertSound(s: State, o: Objective)
    requires RowsSound(s) && Fresh(o)
    ensures RowsSound(Upsert(s, o))
  {
    UpsertFiled(s, o);
  }

  lemma {:induction false} DefineSound(s: State, h: Handoff, objectives: seq<Objective>)
    requires RowsSound(s) && forall i :: 0 <= i < |objectives| ==> Fresh(objectives[i])
    ensures RowsSound(Define(s, h, objectives))
  {
    if objectives != [] {
      DefineSound(s, h, objectives[..|objectives| - 1]);
      UpsertSound(Define(s, h, objectives[..|objectives| - 1]), objectives[|objectives| - 1].(handoffId := h.id));
    }
  }

  lemma CheckSound(s: State, v: Objective, result: ObjectiveStatus, next: Option<Instant>)
    requires RowsSound(s) && v in s.versions
    ensures RowsSound(Settle(s, RecordResult(s, Checked(v, result, next), Some(result))))
  {
    var o := Checked(v, result, next);
    RecordFiled(s, o, Some(result));
    assert Sound(v) && Sound(o);
    assert o.status.Pass? ==> EndsInPasses(s.history[IdOf(v)] + [result], 1);
  }

  lemma SkipSound(s: State, v: Objective)
    requires RowsSound(s) && v in s.versions && v.status.Pending?
    ensures RowsSound(Settle(s, RecordResult(s, SkippedRow(v), None)))
  {
    RecordFiled(s, SkippedRow(v), None);
  }

  lemma SoundStep(w: World, e: Event)
    requires RowsSound(w.db) && FreshEvent(e)
    ensures RowsSound(Apply(w, e).db)
  {
    var t := ObjectiveStep(w, e);
    match e {
      case OpenHandoff(h, objectives, _) => DefineSound(w.db, h, objectives);
      case DefineObjective(o) => UpsertSound(w.db, o);
      case Check(v, result, next) => if v in w.db.versions { CheckSound(w.db, v, result, next); }
      case Skip(v) => if v in w.db.versions && v.status.Pending? { SkipSound(w.db, v); }
      case _ =>
    }
    assert RowsSound(t);
  }

  lemma {:induction false} RunSound(events: seq<Event>)
    requires Fair(events)
    ensures RowsSound(Run(events).db)
  {
    if events != [] {
      RunSound(events[..|events| - 1]);
      SoundStep(Run(events[..|events| - 1]), events[|events| - 1]);
    }
  }

  /** A required objective whose required status is not `pass` keeps its handoff
      from being cleared in every reachable ledger, stale writes included. */
  lemma UnusualRequirementBlocks(events: seq<Event>, handoffId: string, id: ObjectiveId)
    requires Fair(events) && Scoped(Run(events).db, handoffId, id)
    requires !Run(events).db.objectives[id].requiredStatus.Pass?
    ensures !Clears(Run(events).db, handoffId)
  {
    RunSound(events);
    var o := Run(events).db.objectives[id];
    assert Sound(o) && Satisfied(o) ==> o.requiredStatus.Pass?;
  }

  // ----- what the pass count is worth

  predicate CountedRow(o: Objective, history: seq<ObjectiveStatus>) {
    o.passes == PassSuffix(history)
  }

  /** Every pass count is the length of the all-pass suffix of the checks recorded
      since the row was defined. */
  ghost predicate Counted(s: State) {
    forall id :: id in s.objectives ==> id in s.history && CountedRow(s.objectives[id], s.history[id])
  }

  /** One check leaves a true count exactly when it did not pass, or the count it
      read is the stored suffix. */
  lemma CheckCountsIff(s: State, v: Objective, result: ObjectiveStatus, next: Option<Instant>)
    requires RowsFiled(s) && v in s.versions
    ensures var t := Settle(s, RecordResult(s, Checked(v, result, next), Some(result)));
            CountedRow(t.objectives[IdOf(v)], t.history[IdOf(v)]) <==>
              !result.Pass? || v.passes == PassSuffix(s.history[IdOf(v)])
  {
    SuffixOneMore(s.history[IdOf(v)], result);
  }

  /** A skip leaves a true count exactly when the count it read is the stored suffix. */
  lemma SkipCountsIff(s: State, v: Objective)
    requires RowsFiled(s) && v in s.versions && v.status.Pending?
    ensures var t := Settle(s, RecordResult(s, SkippedRow(v), None));
            CountedRow(t.objectives[IdOf(v)], t.history[IdOf(v)]) <==> v.passes == PassSuffix(s.history[IdOf(v)])
  {
  }

  /** The count a write starts from is the stored one. The rest of the row that was
      read may be out of date. */
  predicate FromCurrentCount(s: State, e: Event) {
    match e
    case Check(v, result, _) => v in s.versions && IdOf(v) in s.objectives && result.Pass? ==>
          v.passes == s.objectives[IdOf(v)].passes
    case Skip(v) => v in s.versions && IdOf(v) in s.objectives && v.status.Pending? ==>
          v.passes == s.objectives[IdOf(v)].passes
    case _ => true
  }

  lemma {:induction false} DefineCounted(s: State, h: Handoff, objectives: seq<Objective>)
    requires Counted(s) && forall i :: 0 <= i < |objectives| ==> Fresh(objectives[i])
    ensures Counted(Define(s, h, objectives))
  {
    if objectives != [] {
      DefineCounted(s, h, objectives[..|objectives| - 1]);
    }
  }

  lemma WriteCountedIff(s: State, o: Objective, result: Option<ObjectiveStatus>)
    requires RowsFiled(s) && Counted(s) && IdOf(o) in s.objectives
    ensures var t := Settle(s, RecordResult(s, o, result));
            Counted(t) <==> CountedRow(t.objectives[IdOf(o)], t.history[IdOf(o)])
  {
  }

  /** From true counts, a step leads to true counts if and only if its write
      started from the stored count. */
  lemma CountedStepIff(w: World, e: Event)
    requires RowsFiled(w.db) && Counted(w.db) && FreshEvent(e)
    ensures Counted(Apply(w, e).db) <==> FromCurrentCount(w.db, e)
  {
    var t := ObjectiveStep(w, e);
    assert Counted(t) <==> Counted(Apply(w, e).db);
    match e {
      case OpenHandoff(h, objectives, _) => DefineCounted(w.db, h, objectives);
      case DefineObjective(_) =>
      case Check(v, result, next) =>
        if v in w.db.versions {
          CheckCountsIff(w.db, v, result, next);
          WriteCountedIff(w.db, Checked(v, result, next), Some(result));
        }
      case Skip(v) =>
        if v in w.db.versions && v.status.Pending? {
          SkipCountsIff(w.db, v);
          WriteCountedIff(w.db, SkippedRow(v), None);
        }
      case _ =>
    }
  }

  ghost predicate AllFromCurrentCounts(events: seq<Event>) {
    forall i :: 0 <= i < |events| ==> FromCurrentCount(Run(events[..i]).db, events[i])
  }

  ghost predicate CountedThroughout(events: seq<Event>) {
    forall i :: 0 <= i <= |events| ==> Counted(Run(events[..i]).db)
  }

  /** Over a run the pass counts are the all-pass suffixes at every point if and
      only if every write started from the stored count. */
  lemma RunTallyIff(events: seq<Event>)
    requires Fair(events)
    ensures CountedThroughout(events) <==> AllFromCurrentCounts(events)
  {
    var p, c := (s: State) => Counted(s), (s: State, e: Event) => FromCurrentCount(s, e);
    forall i | 0 <= i < |events| && Counted(Run(events[..i]).db)
      ensures Counted(Run(events[..i + 1]).db) <==> FromCurrentCount(Run(events[..i]).db, events[i])
    {
      RunStep(events, i);
      RunFiled(events[..i]);
      CountedStepIff(Run(events[..i]), events[i]);
    }
    KeptIff(p, c, events, |events|);
  }

  /** What is true at first stays true up to a point of a run exactly as long as the
      condition that decides each step was met. */
  lemma {:induction false} KeptIff(p: State -> bool, c: (State, Event) -> bool, events: seq<Event>, n: nat)
    requires n <= |events| && p(Run(events[..0]).db)
    requires forall i :: 0 <= i < n && p(Run(events[..i]).db) ==>
               (p(Run(events[..i + 1]).db) <==> c(Run(events[..i]).db, events[i]))
    ensures (forall i :: 0 <= i <= n ==> p(Run(events[..i]).db))
            <==> (forall i :: 0 <= i < n ==> c(Run(events[..i]).db, events[i]))
  {
    if n > 0 {
      KeptIff(p, c, events, n - 1);
      if forall i :: 0 <= i <= n - 1 ==> p(Run(events[..i]).db) {
        assert p(Run(events[..n - 1]).db);
        assert p(Run(events[..n - 1 + 1]).db) <==> c(Run(events[..n - 1]).db, events[n - 1]);
      }
    }
  }

  lemma CountedAtEnd(events: seq<Event>)
    requires CountedThroughout(events)
    ensures Counted(Run(events).db)
  {
    assert events[..|events|] == events;
  }

  /** In such a run the pass count of every objective is the length of the all-pass
      suffix of its checks, and the row reads `pass` exactly when it is long enough. */
  lemma RunTally(events: seq<Event>)
    requires Fair(events) && AllFromCurrentCounts(events)
    ensures var s := Run(events).db;
            forall id :: id in s.objectives ==>
              && id in s.history && s.objectives[id].passes == PassSuffix(s.history[id])
              && (s.objectives[id].status.Pass? <==> EndsInPasses(s.history[id], s.objectives[id].needed))
  {
    RunTallyIff(events);
    CountedAtEnd(events);
    RunSound(events);
    var s := Run(events).db;
    forall id | id in s.objectives
      ensures s.objectives[id].status.Pass? <==> EndsInPasses(s.history[id], s.objectives[id].needed)
    {
      assert Sound(s.objectives[id]);
      SuffixIsPasses(s.history[id], s.objectives[id].needed);
    }
  }

  // ----- what the row demands

  /** Every row demands what it was last defined to. */
  ghost predicate Agreed(s: State) {
    forall id :: id in s.objectives ==> id in s.defined && DefinitionOf(s.objectives[id]) == s.defined[id]
  }

  /** A write starts from a version of the last definition of its row. */
  predicate FromCurrentDefinition(s: State, e: Event) {
    match e
    case Check(v, _, _) =>
      v in s.versions && IdOf(v) in s.objectives && IdOf(v) in s.defined ==> DefinitionOf(v) == s.defined[IdOf(v)]
    case Skip(v) =>
      v in s.versions && IdOf(v) in s.objectives && IdOf(v) in s.defined && v.status.Pending? ==>
        DefinitionOf(v) == s.defined[IdOf(v)]
    case _ => true
  }

  lemma {:induction false} DefineAgreed(s: State, h: Handoff, objectives: seq<Objective>)
    requires Agreed(s)
    ensures Agreed(Define(s, h, objectives))
  {
    if objectives != [] {
      DefineAgreed(s, h, objectives[..|objectives| - 1]);
    }
  }

  /** Results leave the definition on record and write the one they read into the row. */
  lemma AgreedStepIff(w: World, e: Event)
    requires RowsFiled(w.db) && Agreed(w.db)
    ensures Agreed(Apply(w, e).db) <==> FromCurrentDefinition(w.db, e)
  {
    var t := ObjectiveStep(w, e);
    SameAgreed(t, Apply(w, e).db);
    match e {
      case OpenHandoff(h, objectives, _) => DefineAgreed(w.db, h, objectives);
      case DefineObjective(o) => UpsertAgreed(w.db, o);
      case Check(v, result, next) => CheckAgreedIff(w.db, v, result, next);
      case Skip(v) => SkipAgreedIff(w.db, v);
      case _ =>
    }
  }

  lemma UpsertAgreed(s: State, o: Objective)
    requires Agreed(s)
    ensures Agreed(Upsert(s, o))
  {
  }

  lemma CheckAgreedIff(s: State, v: Objective, result: ObjectiveStatus, next: Option<Instant>)
    requires RowsFiled(s) && Agreed(s)
    ensures var t := if v in s.versions then Settle(s, RecordResult(s, Checked(v, result, next), Some(result))) else s;
            Agreed(t) <==> FromCurrentDefinition(s, Check(v, result, next))
  {
    if v in s.versions {
      WriteAgreedIff(s, Checked(v, result, next), Some(result));
    }
  }

  lemma SkipAgreedIff(s: State, v: Objective)
    requires RowsFiled(s) && Agreed(s)
    ensures var t := if v in s.versions && v.status.Pending?
            then Settle(s, RecordResult(s, SkippedRow(v), None)) else s;
            Agreed(t) <==> FromCurrentDefinition(s, Skip(v))
  {
    if v in s.versions && v.status.Pending? {
      WriteAgreedIff(s, SkippedRow(v), None);
    }
  }

  lemma SameAgreed(s: State, t: State)
    requires s.objectives == t.objectives && s.defined == t.defined
    ensures Agreed(s) <==> Agreed(t)
  {
  }

  lemma WriteAgreedIff(s: State, o: Objective, result: Option<ObjectiveStatus>)
    requires RowsFiled(s) && Agreed(s)
    ensures IdOf(o) in s.objectives ==>
              (Agreed(Settle(s, RecordResult(s, o, result))) <==> DefinitionOf(o) == s.defined[IdOf(o)])
  {
  }

  ghost predicate AllFromCurrentDefinitions(events: seq<Event>) {
    forall i :: 0 <= i < |events| ==> FromCurrentDefinition(Run(events[..i]).db, events[i])
  }

  ghost predicate AgreedThroughout(events: seq<Event>) {
    forall i :: 0 <= i <= |events| ==> Agreed(Run(events[..i]).db)
  }

  /** Over a run every row demands what it was last defined to, at every point, if and
      only if every check and every skip wrote from a version of that definition. */
  lemma RunAgreesIff(events: seq<Event>)
    ensures AgreedThroughout(events) <==> AllFromCurrentDefinitions(events)
  {
    var p, c := (s: State) => Agreed(s), (s: State, e: Event) => FromCurrentDefinition(s, e);
    forall i | 0 <= i < |events| && Agreed(Run(events[..i]).db)
      ensures Agreed(Run(events[..i + 1]).db) <==> FromCurrentDefinition(Run(events[..i]).db, events[i])
    {
      RunStep(events, i);
      RunFiled(events[..i]);
      AgreedStepIff(Run(events[..i]), events[i]);
    }
    KeptIff(p, c, events, |events|);
  }

  // ----- verification

  /** A required objective that is filed under a handoff, by its column and its last
      definition. */
  predicate Filed(s: State, handoffId: string, id: ObjectiveId) {
    && id in s.objectives && id in s.owners && s.owners[id] == handoffId
    && id in s.defined && s.defined[id].required
    && handoffId in s.handoffs && id.0 == s.handoffs[handoffId].caseId
  }

  /** Every required objective filed under the handoff asks for passes, and the last of
      its checks, as many as its definition needs, were passes. */
  ghost predicate Proven(s: State, handoffId: string) {
    && (exists id :: Filed(s, handoffId, id))
    && (forall id :: Filed(s, handoffId, id) ==>
          && s.defined[id].requiredStatus.Pass? && s.defined[id].needed >= 1
          && id in s.history && EndsInPasses(s.history[id], s.defined[id].needed))
  }

  /** Where rows demand what they were defined to, the verifier looks at exactly the
      objectives filed under the handoff. */
  lemma ScopedIsFiled(s: State, handoffId: string, id: ObjectiveId)
    requires RowsFiled(s) && Agreed(s)
    ensures Scoped(s, handoffId, id) <==> Filed(s, handoffId, id)
  {
  }

  /** On such rows, with true counts, a look clears a handoff if and only if its objectives
      are proven. */
  lemma ClearsIffProven(s: State, handoffId: string)
    requires RowsSound(s) && Counted(s) && Agreed(s)
    ensures Clears(s, handoffId) <==> Proven(s, handoffId)
  {
    forall id ensures Scoped(s, handoffId, id) <==> Filed(s, handoffId, id) {
      ScopedIsFiled(s, handoffId, id);
    }
    forall id | Filed(s, handoffId, id)
      ensures Satisfied(s.objectives[id]) <==>
                && s.defined[id].requiredStatus.Pass? && s.defined[id].needed >= 1
                && id in s.history && EndsInPasses(s.history[id], s.defined[id].needed)
    {
      assert Sound(s.objectives[id]) && CountedRow(s.objectives[id], s.history[id]);
      SuffixIsPasses(s.history[id], s.objectives[id].needed);
    }
  }

  lemma {:induction false} ClearedWasAssessed(events: seq<Event>, n: nat, handoffId: string) returns (r: nat)
    requires n <= |events| && handoffId in Run(events[..n]).cleared
    ensures r < n && events[r] == Assess(handoffId) && Clears(Run(events[..r]).db, handoffId)
  {
    RunStep(events, n - 1);
    r := n - 1;
    if handoffId in Run(events[..r]).cleared {
      r := ClearedWasAssessed(events, r, handoffId);
    }
  }

  lemma VerifiedNeedsMark(w: World, e: Event, id: string)
    requires HasStatus(Apply(w, e), id, Verified) && !HasStatus(w, id, Verified)
    requires e.OpenHandoff? ==> e.h.status.Requested?
    ensures e.Mark? && e.marked == id && id in w.cleared
  {
    if id in w.db.handoffs {
      match e
      case OpenHandoff(h, objectives, _) => DefineFrame(w.db.(handoffs := w.db.handoffs[h.id := h]), h, objectives);
      case UpdateHandoff(_, _, _, _) => UpdateNeverVerifies(w, e, id);
      case DefineObjective(_) =>
      case Check(_, _, _) =>
      case Skip(_) =>
      case Assess(_) =>
      case Mark(_, _) =>
      case ResolveCase(_, _, _) =>
      case WriteCase(_, _) =>
    } else {
      NewHandoff(w, e, id);
    }
  }

  /** In every run, stale writes included: whenever a handoff becomes verified, an
      earlier look of a verifier found a required objective for it, and each one
      required `pass`, read `pass`, and was last written by a check that passed. */
  lemma VerifiedAfterPasses(events: seq<Event>, n: nat, id: string) returns (r: nat)
    requires n < |events| && Fair(events) && OpensRequested(events)
    requires HasStatus(Run(events[..n + 1]), id, Verified) && !HasStatus(Run(events[..n]), id, Verified)
    ensures r < n && events[r] == Assess(id) && Clears(Run(events[..r]).db, id)
    ensures forall o :: Scoped(Run(events[..r]).db, id, o) ==>
              && Run(events[..r]).db.objectives[o].requiredStatus.Pass?
              && o in Run(events[..r]).db.history && EndsInPasses(Run(events[..r]).db.history[o], 1)
  {
    RunStep(events, n);
    VerifiedNeedsMark(Run(events[..n]), events[n], id);
    r := ClearedWasAssessed(events, n, id);
    RunSound(events[..r]);
    var s := Run(events[..r]).db;
    forall o | Scoped(s, id, o)
      ensures s.objectives[o].requiredStatus.Pass? && o in s.history && EndsInPasses(s.history[o], 1)
    {
      assert Sound(s.objectives[o]) && Satisfied(s.objectives[o]);
    }
  }

  /** Verifier soundness: when every write started from the stored count and from the
      last definition, that look found the last `needed` recorded checks of each
      required objective filed under the handoff to be passes. */
  lemma VerifiedOnlyIfProven(events: seq<Event>, n: nat, id: string) returns (r: nat)
    requires n < |events| && Fair(events) && OpensRequested(events)
    requires AllFromCurrentCounts(events) && AllFromCurrentDefinitions(events)
    requires HasStatus(Run(events[..n + 1]), id, Verified) && !HasStatus(Run(events[..n]), id, Verified)
    ensures r < n && events[r] == Assess(id) && Proven(Run(events[..r]).db, id)
  {
    r := VerifiedAfterPasses(events, n, id);
    RunTallyIff(events);
    RunAgreesIff(events);
    RunSound(events[..r]);
    ClearsIffProven(Run(events[..r]).db, id);
  }

  /** Over a run whose writes were current, a look clears a handoff exactly when its
      objectives are proven. */
  lemma RunClearsIff(events: seq<Event>, id: string)
    requires Fair(events) && AllFromCurrentCounts(events) && AllFromCurrentDefinitions(events)
    ensures Clears(Run(events).db, id) <==> Proven(Run(events).db, id)
  {
    RunTallyIff(events);
    RunAgreesIff(events);
    CountedAtEnd(events);
    assert events[..|events|] == events;
    RunSound(events);
    ClearsIffProven(Run(events).db, id);
  }

  lemma ClearedIsResolved(w: World, id: string, markedAt: Instant, resolvedAt: Instant)
    requires id != "" && Clears(w.db, id) && HasStatus(w, id, Implemented) && w.db.handoffs[id].caseId in w.db.cases
    ensures var c := w.db.handoffs[id].caseId;
            var u := Apply(Apply(Apply(w, Assess(id)), Mark(id, markedAt)), ResolveCase(c, id, resolvedAt));
            && HasStatus(u, id, HandoffStatus.Resolved) && c in u.db.cases
            && u.db.cases[c].status == CaseStatus.Resolved && u.db.cases[c].resolutionReason == "lhp_outcome_verified"
  {
    var x := Apply(w, Assess(id));
    MarkedIff(x.db, id, markedAt);
    ResolvedIff(Apply(x, Mark(id, markedAt)).db, w.db.handoffs[id].caseId, id, w.db.handoffs[id].caseId, resolvedAt);
  }

  lemma OneMore(events: seq<Event>, e: Event)
    ensures Run(events + [e]) == Apply(Run(events), e)
  {
    assert (events + [e])[..|events|] == events;
  }

  /** And verifier progress: in such a run, once the objectives of an implemented handoff
      are proven, a look, a mark and a resolution take it and its case to the end. */
  lemma ProvenIsResolved(events: seq<Event>, id: string, markedAt: Instant, resolvedAt: Instant)
    requires Fair(events) && AllFromCurrentCounts(events) && AllFromCurrentDefinitions(events)
    requires id != "" && Proven(Run(events).db, id) && HasStatus(Run(events), id, Implemented)
    requires Run(events).db.handoffs[id].caseId in Run(events).db.cases
    ensures var c := Run(events).db.handoffs[id].caseId;
            var w := Run(events + [Assess(id)] + [Mark(id, markedAt)] + [ResolveCase(c, id, resolvedAt)]);
            && HasStatus(w, id, HandoffStatus.Resolved) && c in w.db.cases
            && w.db.cases[c].status == CaseStatus.Resolved && w.db.cases[c].resolutionReason == "lhp_outcome_verified"
  {
    RunClearsIff(events, id);
    ClearedIsResolved(Run(events), id, markedAt, resolvedAt);
    OneMore(events, Assess(id));
    OneMore(events + [Assess(id)], Mark(id, markedAt));
    OneMore(events + [Assess(id)] + [Mark(id, markedAt)],
            ResolveCase(Run(events).db.handoffs[id].caseId, id, resolvedAt));
  }
}
