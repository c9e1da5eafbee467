/** Acknowledgement coverage over whole runs of the delivery protocol: with
    deliveries, suppressions, moves, relations and other cases in between. */
module AckRuns {
  import opened Types
  import opened Lifecycle
  import opened Delivery
  import opened CommitLog

  predicate Acked(w: World, id: string) {
    id in w.db.table.cases && w.db.table.cases[id].Acknowledged()
  }

  predicate AcksAgain(e: Event, id: string) {
    e.CaseWrite? && e.write.AckCase? && e.write.id == id
  }

  /** A firing observation beyond the covered severity, or of a case that is
      resolved or recovering when it arrives. */
  predicate BreaksAck(w: World, e: Event, id: string, covered: Severity) {
    && e.CaseWrite? && e.write.ObserveCase? && e.write.id == id && id in w.db.table.cases
    && e.write.o.status.FiringSeen?
    && (Revives(w.db.table.cases[id].status) || e.write.o.severity.Rank() > covered.Rank())
  }

  lemma AckUnderOp(t: Table, op: Op, now: Instant, id: string)
    requires id in t.cases && t.cases[id].Acknowledged() && !(op.AckCase? && op.id == id)
    ensures id in ApplyOp(t, op, now).cases
    ensures var a, b := t.cases[id], ApplyOp(t, op, now).cases[id];
            if op.ObserveCase? && op.id == id && op.o.status.FiringSeen? && Breaks(a, Covered(t, id), op.o.severity)
            then b.acknowledgedAt.None? && b.acknowledgedBy == "" && b.generation == a.generation + 1
            else SameAck(t, ApplyOp(t, op, now), id)
  {
  }

  /** One event breaks an acknowledgement, once for all and with a new generation,
      or leaves everything about it as it was. */
  lemma AckStep(w: World, e: Event, id: string, covered: Severity)
    requires Acked(w, id) && covered == Covered(w.db.table, id) && !AcksAgain(e, id)
    ensures if BreaksAck(w, e, id, covered)
            then !Acked(Apply(w, e), id) && id in Apply(w, e).db.table.cases
                 && Apply(w, e).db.table.cases[id].generation == w.db.table.cases[id].generation + 1
            else SameAck(w.db.table, Apply(w, e).db.table, id)
  {
    TableEffect(w, e);
    if e.CaseWrite? {
      AckUnderOp(w.db.table, e.write, w.now, id);
    }
  }

  lemma UnackedUnderOp(t: Table, op: Op, now: Instant, id: string)
    requires id in t.cases && !t.cases[id].Acknowledged() && !(op.AckCase? && op.id == id)
    ensures id in ApplyOp(t, op, now).cases && !ApplyOp(t, op, now).cases[id].Acknowledged()
  {
  }

  lemma UnackedStep(w: World, e: Event, id: string)
    requires id in w.db.table.cases && !Acked(w, id) && !AcksAgain(e, id)
    ensures id in Apply(w, e).db.table.cases && !Acked(Apply(w, e), id)
  {
    TableEffect(w, e);
    if e.CaseWrite? {
      UnackedUnderOp(w.db.table, e.write, w.now, id);
    }
  }

  lemma EitherStep(start: Table, w: World, e: Event, id: string, covered: Severity)
    requires id in w.db.table.cases && !AcksAgain(e, id)
    requires Acked(w, id) ==> SameAck(start, w.db.table, id) && covered == Covered(start, id)
    ensures id in Apply(w, e).db.table.cases
    ensures Acked(Apply(w, e), id) <==> Acked(w, id) && !BreaksAck(w, e, id, covered)
    ensures Acked(Apply(w, e), id) ==> SameAck(start, Apply(w, e).db.table, id)
  {
    if Acked(w, id) {
      AckStep(w, e, id, covered);
    } else {
      UnackedStep(w, e, id);
    }
  }

  /** No event of the run breaks the coverage. */
  predicate UnbrokenRun(w: World, events: seq<Event>, id: string, covered: Severity) {
    events == []
    || (UnbrokenRun(w, events[..|events| - 1], id, covered)
        && !BreaksAck(Run(w, events[..|events| - 1]), events[|events| - 1], id, covered))
  }

  /** Through any run without another acknowledgement of the case: it is still
      acknowledged at the end if and only if no observation broke the coverage it
      had at the start, and then the acknowledgement, its coverage and the
      generation are the same. */
  lemma {:induction false} AckStandsIffUnbroken(w: World, events: seq<Event>, id: string, covered: Severity)
    requires Acked(w, id) && covered == Covered(w.db.table, id)
    requires forall k :: 0 <= k < |events| ==> !AcksAgain(events[k], id)
    ensures id in Run(w, events).db.table.cases
    ensures Acked(Run(w, events), id) <==> UnbrokenRun(w, events, id, covered)
    ensures Acked(Run(w, events), id) ==> SameAck(w.db.table, Run(w, events).db.table, id)
  {
    if events != [] {
      var n := |events| - 1;
      AckStandsIffUnbroken(w, events[..n], id, covered);
      EitherStep(w.db.table, Run(w, events[..n]), events[n], id, covered);
    }
  }

  /** The first observation that breaks the coverage clears the acknowledgement and
      raises the generation by exactly one over what it was when acknowledged. */
  lemma FirstBreakRaisesGeneration(w: World, events: seq<Event>, e: Event, id: string, covered: Severity)
    requires Acked(w, id) && covered == Covered(w.db.table, id)
    requires forall k :: 0 <= k < |events| ==> !AcksAgain(events[k], id)
    requires UnbrokenRun(w, events, id, covered) && BreaksAck(Run(w, events), e, id, covered)
    ensures var u := Apply(Run(w, events), e);
            && id in u.db.table.cases && !Acked(u, id)
            && u.db.table.cases[id].generation == w.db.table.cases[id].generation + 1
  {
    AckStandsIffUnbroken(w, events, id, covered);
    AckStep(Run(w, events), e, id, covered);
  }
}
