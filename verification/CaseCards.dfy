/** One durable case card (app/case_cards.py): a persisted record of the message
    that shows it, and the message itself, which other parties may delete. */
module CaseCards {
  import opened Types

  const CARD_REFRESH := Seconds(6 * 3600)

  type Payload = string
  type Revision = real

  /** The state file. The digest is taken to be injective, so the payload stands for it. */
  datatype Stored = Stored(message: nat, digest: Payload, verifiedAt: Instant, revision: Revision)

  datatype Entry = Entry(revision: Revision, payload: Payload)

  /** The file, the messages that exist, and the history the claims speak about:
      what deliveries accepted, the messages created, the deletions the transport
      confirmed, and the creates whose record was never written. */
  datatype Card = Card(
    stored: Option<Stored>, live: map<nat, Payload>, nextMessage: nat,
    accepted: seq<Entry>, creates: nat, confirmedDeletions: nat, lostCreates: nat)

  datatype Request = Request(payload: Payload, revision: Revision, force: bool, receipt: bool, now: Instant)

  /** How the outside world answers one delivery: whether the edit and the create
      get through, and whether the record is written before a crash or failure. A
      call that does not get through leaves the messages as they are. */
  datatype Answers = Answers(editReaches: bool, createReaches: bool, recordWritten: bool)

  datatype Outcome = Delivered | NotDelivered | Superseded | SupersededSince(verifiedAt: Instant)

  function Initial(): Card {
    Card(None, map[], 1, [], 0, 0, 0)
  }

  predicate Unchanged(s: Stored, r: Request) {
    !r.force && s.digest == r.payload && 0 <= r.now - s.verifiedAt < CARD_REFRESH
  }

  function SupersededOutcome(s: Stored, r: Request): Outcome {
    if r.receipt && 0 < s.verifiedAt <= r.now then SupersededSince(s.verifiedAt) else Superseded
  }

  /** The last step of a delivery: replace the record, or lose it. */
  function Record(c: Card, message: nat, verifiedAt: Instant, r: Request, a: Answers): (Card, Outcome) {
    if a.recordWritten then
      (c.(stored := Some(Stored(message, r.payload, verifiedAt, r.revision)),
          accepted := c.accepted + [Entry(r.revision, r.payload)]), Delivered)
    else (c, NotDelivered)
  }

  function Create(c: Card, r: Request, a: Answers): (Card, Outcome) {
    if !a.createReaches then (c, NotDelivered)
    else
      var id := c.nextMessage;
      Record(c.(live := c.live[id := r.payload], nextMessage := id + 1, creates := c.creates + 1,
                lostCreates := c.lostCreates + if a.recordWritten then 0 else 1),
             id, r.now, r, a)
  }

  function Deliver(c: Card, r: Request, a: Answers): (Card, Outcome) {
    if c.stored.None? then Create(c, r, a)
    else
      var s := c.stored.value;
      if r.revision < s.revision then (c, SupersededOutcome(s, r))
      else if Unchanged(s, r) then
        if r.revision == s.revision then (c.(accepted := c.accepted + [Entry(r.revision, r.payload)]), Delivered)
        else Record(c, s.message, s.verifiedAt, r, a)
      else if !a.editReaches then (c, NotDelivered)
      else if s.message in c.live then
        Record(c.(live := c.live[s.message := r.payload]), s.message, r.now, r, a)
      else Create(c.(confirmedDeletions := c.confirmedDeletions + 1), r, a)
  }

  datatype Event = Delivery(r: Request, a: Answers) | Deletion(message: nat)

  function Apply(c: Card, e: Event): Card {
    match e
    case Delivery(r, a) => Deliver(c, r, a).0
    case Deletion(m) => c.(live := c.live - {m})
  }

  function Run(events: seq<Event>): Card {
    if events == [] then Initial() else Apply(Run(events[..|events| - 1]), events[|events| - 1])
  }

  /** The record is the last accepted delivery, no accepted delivery had a higher
      revision, and ids never repeat. */
  ghost predicate Register(c: Card) {
    && (c.stored.None? <==> c.accepted == [])
    && (c.stored.Some? ==>
          && c.accepted[|c.accepted| - 1] == Entry(c.stored.value.revision, c.stored.value.digest)
          && c.stored.value.message < c.nextMessage)
    && (forall i, j :: 0 <= i < j < |c.accepted| ==> c.accepted[i].revision <= c.accepted[j].revision)
    && (forall m :: m in c.live ==> m < c.nextMessage)
  }

  /** While the card's message exists it shows the recorded payload. */
  predicate Faithful(c: Card) {
    c.stored.Some? && c.stored.value.message in c.live ==> c.live[c.stored.value.message] == c.stored.value.digest
  }

  predicate CreatesBounded(c: Card) {
    c.creates <= (if c.stored.Some? then 1 else 0) + c.confirmedDeletions + c.lostCreates
  }

  lemma ApplyKeepsRegister(c: Card, e: Event)
    requires Register(c)
    ensures Register(Apply(c, e))
    ensures |c.accepted| <= |Apply(c, e).accepted| && c.accepted <= Apply(c, e).accepted
  {
  }

  lemma ApplyKeepsBound(c: Card, e: Event)
    requires CreatesBounded(c)
    ensures CreatesBounded(Apply(c, e))
  {
  }

  /** The stored revision never decreases, and a record is never dropped. */
  lemma RevisionMonotone(events: seq<Event>, i: nat, j: nat)
    requires i <= j <= |events| && Run(events[..i]).stored.Some?
    ensures Run(events[..j]).stored.Some?
    ensures Run(events[..i]).stored.value.revision <= Run(events[..j]).stored.value.revision
  {
    if i < j {
      RevisionMonotone(events, i, j - 1);
      assert events[..j][..j - 1] == events[..j - 1];
    }
  }

  /** Refinement of a revision-ordered register: in every run the record holds the
      highest revision accepted so far and, among deliveries of that revision, the
      latest payload. A delivery is accepted only if no higher revision was, and a
      delivery below the highest accepted revision changes nothing. */
  lemma {:induction false} RecordIsHighest(events: seq<Event>)
    ensures Register(Run(events))
    ensures var c := Run(events);
            c.stored.Some? ==> forall k :: 0 <= k < |c.accepted| ==> c.accepted[k].revision <= c.stored.value.revision
  {
    if events != [] {
      RecordIsHighest(events[..|events| - 1]);
      ApplyKeepsRegister(Run(events[..|events| - 1]), events[|events| - 1]);
    }
  }

  lemma StaleDeliveryIsNoOp(events: seq<Event>, r: Request, a: Answers)
    requires exists k :: 0 <= k < |Run(events).accepted| && r.revision < Run(events).accepted[k].revision
    ensures Deliver(Run(events), r, a).0 == Run(events)
    ensures !Deliver(Run(events), r, a).1.Delivered? && !Deliver(Run(events), r, a).1.NotDelivered?
  {
    RecordIsHighest(events);
  }

  /** Messages are created at most once, plus once per deletion the transport
      confirmed and once per create whose record was lost. */
  lemma {:induction false} CreatesAreBounded(events: seq<Event>)
    ensures Run(events).creates <= 1 + Run(events).confirmedDeletions + Run(events).lostCreates
    ensures CreatesBounded(Run(events))
  {
    if events != [] {
      CreatesAreBounded(events[..|events| - 1]);
      ApplyKeepsBound(Run(events[..|events| - 1]), events[|events| - 1]);
    }
  }

  // ----- what one delivery does

  /** The payload was shown, or confirmed, less than six hours ago. */
  predicate ShownLately(c: Card, r: Request) {
    && c.stored.Some? && !r.force && c.stored.value.digest == r.payload
    && c.stored.value.verifiedAt <= r.now < c.stored.value.verifiedAt + 21_600_000_000
  }

  /** A delivery that nothing hinders and that is not below the record is accepted and
      recorded. Unless its payload was shown lately, the card's message then shows it: the
      old message when it still exists, else a new one; no other message changes. */
  lemma DeliveryIsShown(c: Card, r: Request)
    requires c.stored.Some? ==> c.stored.value.revision <= r.revision
    ensures var d, o := Deliver(c, r, Answers(true, true, true)).0, Deliver(c, r, Answers(true, true, true)).1;
            && o == Delivered && d.accepted == c.accepted + [Entry(r.revision, r.payload)] && d.stored.Some?
            && var s := d.stored.value;
               && s.revision == r.revision && s.digest == r.payload
               && if ShownLately(c, r) then
                    && d.live == c.live && d.nextMessage == c.nextMessage
                    && s.message == c.stored.value.message && s.verifiedAt == c.stored.value.verifiedAt
                  else
                    && s.verifiedAt == r.now && d.live == c.live[s.message := r.payload]
                    && if c.stored.Some? && c.stored.value.message in c.live
                       then s.message == c.stored.value.message && d.nextMessage == c.nextMessage
                       else s.message == c.nextMessage && d.nextMessage == c.nextMessage + 1
  {
  }

  /** What a delivery needs from outside: to show a payload its edit must get through, and
      where the message is gone or was never made its create; and it must be recorded,
      unless nothing at all has changed. */
  predicate GetsThrough(c: Card, r: Request, a: Answers) {
    if c.stored.None? then a.createReaches && a.recordWritten
    else if ShownLately(c, r) then a.recordWritten || r.revision == c.stored.value.revision
    else a.editReaches && a.recordWritten && (c.stored.value.message in c.live || a.createReaches)
  }

  /** A delivery below the record is superseded, and tells since when if it was asked to
      and the record's own time is one that has passed. Any other is delivered exactly when
      it gets through, and one that does not leaves the record as it was. */
  lemma OutcomeIff(c: Card, r: Request, a: Answers)
    ensures var d, o := Deliver(c, r, a).0, Deliver(c, r, a).1;
            if c.stored.Some? && r.revision < c.stored.value.revision then
              && d == c
              && o == if r.receipt && c.stored.value.verifiedAt > 0 && c.stored.value.verifiedAt <= r.now
                      then SupersededSince(c.stored.value.verifiedAt) else Superseded
            else if GetsThrough(c, r, a) then o == Delivered
            else o == NotDelivered && d.stored == c.stored && d.accepted == c.accepted
  {
  }

  /** The history that deliveries are bounded by counts what happened: messages made,
      deletions met by an edit that got through, and made messages without a record. */
  lemma HistoryCounts(c: Card, r: Request, a: Answers)
    ensures var d := Deliver(c, r, a).0;
            var made := d.nextMessage - c.nextMessage;
            && 0 <= made <= 1 && d.creates == c.creates + made && (made == 1 <==> c.nextMessage < d.nextMessage)
            && d.lostCreates == c.lostCreates + (if a.recordWritten then 0 else made)
            && d.confirmedDeletions == c.confirmedDeletions +
                 (if c.stored.Some? && c.stored.value.revision <= r.revision && !ShownLately(c, r) && a.editReaches
                     && c.stored.value.message !in c.live then 1 else 0)
  {
  }

  /** An edit that went through with a new payload and whose record was lost. */
  predicate Torn(c: Card, e: Event) {
    && e.Delivery? && c.stored.Some? && c.stored.value.message in c.live
    && e.r.revision >= c.stored.value.revision && !Unchanged(c.stored.value, e.r)
    && e.a.editReaches && !e.a.recordWritten
    && e.r.payload != c.stored.value.digest
  }

  /** The message stops showing the recorded payload exactly at a torn edit. */
  lemma FaithfulUnlessTorn(c: Card, e: Event)
    requires Register(c) && Faithful(c)
    ensures Faithful(Apply(c, e)) <==> !Torn(c, e)
  {
  }

  /** An edit that reaches the card's message. */
  predicate Edits(c: Card, e: Event) {
    && e.Delivery? && c.stored.Some? && c.stored.value.message in c.live
    && e.r.revision >= c.stored.value.revision && !Unchanged(c.stored.value, e.r) && e.a.editReaches
  }

  /** What brings message and record together again: an edit that is recorded or
      restores the recorded payload, or the deletion of the message. */
  predicate Repairs(c: Card, e: Event) {
    || (Edits(c, e) && (e.a.recordWritten || e.r.payload == c.stored.value.digest))
    || (e.Deletion? && c.stored.Some? && e.message == c.stored.value.message)
  }

  /** A message that differs from the record agrees again exactly at a repair. */
  lemma RepairedIff(c: Card, e: Event)
    requires Register(c) && !Faithful(c)
    ensures Faithful(Apply(c, e)) <==> Repairs(c, e)
  {
  }

  /** Which steps of a run tear the card, and which repair it. */
  function Marks(events: seq<Event>): (m: seq<(bool, bool)>)
    ensures |m| == |events|
  {
    if events == [] then []
    else
      var n := |events| - 1;
      Marks(events[..n]) + [(Torn(Run(events[..n]), events[n]), Repairs(Run(events[..n]), events[n]))]
  }

  predicate TearsRepaired(marks: seq<(bool, bool)>) {
    forall i :: 0 <= i < |marks| && marks[i].0 ==> exists j :: i < j < |marks| && marks[j].1
  }

  lemma {:induction false} MarksAre(events: seq<Event>, i: nat)
    requires i < |events|
    ensures Marks(events)[i] == (Torn(Run(events[..i]), events[i]), Repairs(Run(events[..i]), events[i]))
  {
    var n := |events| - 1;
    if i < n {
      MarksAre(events[..n], i);
      assert events[..n][..i] == events[..i];
    }
  }

  lemma TearsSplit(marks: seq<(bool, bool)>, last: (bool, bool))
    ensures TearsRepaired(marks + [last]) <==> !last.0 && (last.1 || TearsRepaired(marks))
  {
    var longer := marks + [last];
    if TearsRepaired(longer) {
      assert longer[|marks|] == last;
      forall i | 0 <= i < |marks| && marks[i].0 && !last.1 ensures exists j :: i < j < |marks| && marks[j].1 {
        assert longer[i] == marks[i];
        var j :| i < j < |longer| && longer[j].1;
        assert marks[j].1;
      }
    }
    if !last.0 && (last.1 || TearsRepaired(marks)) {
      forall i | 0 <= i < |longer| && longer[i].0 ensures exists j :: i < j < |longer| && longer[j].1 {
        if last.1 {
          assert longer[|marks|].1;
        } else {
          assert longer[i] == marks[i];
          var j :| i < j < |marks| && marks[j].1;
          assert longer[j].1;
        }
      }
    }
  }

  ghost predicate TornAt(events: seq<Event>, i: nat)
    requires i < |events|
  {
    Torn(Run(events[..i]), events[i])
  }

  ghost predicate RepairedAt(events: seq<Event>, j: nat)
    requires j < |events|
  {
    Repairs(Run(events[..j]), events[j])
  }

  ghost predicate EveryTearRepaired(events: seq<Event>) {
    forall i :: 0 <= i < |events| && TornAt(events, i) ==> exists j :: i < j < |events| && RepairedAt(events, j)
  }

  lemma TearsMarked(events: seq<Event>)
    ensures EveryTearRepaired(events) <==> TearsRepaired(Marks(events))
  {
    forall i | 0 <= i < |events| ensures Marks(events)[i] == (TornAt(events, i), RepairedAt(events, i)) {
      MarksAre(events, i);
    }
  }

  lemma {:induction false} FaithfulMarks(events: seq<Event>)
    ensures Faithful(Run(events)) <==> TearsRepaired(Marks(events))
  {
    if events != [] {
      var n := |events| - 1;
      FaithfulMarks(events[..n]);
      TearsSplit(Marks(events[..n]), (Torn(Run(events[..n]), events[n]), Repairs(Run(events[..n]), events[n])));
      RecordIsHighest(events[..n]);
      if Faithful(Run(events[..n])) {
        FaithfulUnlessTorn(Run(events[..n]), events[n]);
      } else {
        RepairedIff(Run(events[..n]), events[n]);
        assert !Torn(Run(events[..n]), events[n]) || !Repairs(Run(events[..n]), events[n]);
      }
    }
  }

  /** A run ends with the message showing the recorded payload if and only if every
      torn edit in it was repaired later. */
  lemma FaithfulIff(events: seq<Event>)
    ensures Faithful(Run(events)) <==> EveryTearRepaired(events)
  {
    FaithfulMarks(events);
    TearsMarked(events);
  }

  /** In a run without torn edits the live message always shows the payload of
      the highest accepted revision. */
  lemma LiveShowsHighest(events: seq<Event>)
    requires forall i :: 0 <= i < |events| ==> !Torn(Run(events[..i]), events[i])
    ensures Faithful(Run(events))
  {
    FaithfulIff(events);
  }

  /** Without that restriction the claim fails: the edit to "b" is torn, and a
      repeat of "a" is then reported delivered while the message shows "b". */
  lemma TornEditHidesDelivery()
    ensures var ok := Answers(true, true, true);
            var events := [Delivery(Request("a", 1.0, false, false, 0), ok),
                           Delivery(Request("b", 2.0, false, false, 1), Answers(true, true, false)),
                           Delivery(Request("a", 3.0, false, false, 2), ok)];
            && Deliver(Run(events[..2]), events[2].r, ok).1 == Delivered
            && Run(events).live == map[1 := "b"]
            && Run(events).stored == Some(Stored(1, "a", 0, 3.0))
  {
    var ok := Answers(true, true, true);
    var e1 := Delivery(Request("a", 1.0, false, false, 0), ok);
    var e2 := Delivery(Request("b", 2.0, false, false, 1), Answers(true, true, false));
    var e3 := Delivery(Request("a", 3.0, false, false, 2), ok);
    var events := [e1, e2, e3];
    assert events[..0] == [] && events[..1] == [e1] && events[..2] == [e1, e2] && events[..3] == events;
    assert [e1][..0] == [] && [e1, e2][..1] == [e1] && events[..2] == [e1, e2];
    assert Run([e1]) == Apply(Initial(), e1);
    assert Run([e1, e2]) == Apply(Run([e1]), e2);
    assert Run(events) == Apply(Run([e1, e2]), e3);
  }

  /** The card as the delivery routine sees it; the file lock makes each call one step. */
  class CardChannel {
    var stored: Option<Stored>
    var live: map<nat, Payload>
    var nextMessage: nat
    ghost var accepted: seq<Entry>
    ghost var creates: nat
    ghost var confirmedDeletions: nat
    ghost var lostCreates: nat

    ghost function Snapshot(): Card
      reads this
    {
      Card(stored, live, nextMessage, accepted, creates, confirmedDeletions, lostCreates)
    }

    constructor ()
      ensures Snapshot() == Initial()
    {
      stored, live, nextMessage := None, map[], 1;
      accepted, creates, confirmedDeletions, lostCreates := [], 0, 0, 0;
    }

    method DeliverCaseCard(r: Request, a: Answers) returns (outcome: Outcome)
      modifies this
      ensures (Snapshot(), outcome) == Deliver(old(Snapshot()), r, a)
    {
      var message: Option<nat> := None;
      var verifiedNow := r.now;
      if stored.Some? {
        var previous := stored.value;
        message := Some(previous.message);
        if r.revision < previous.revision {
          if r.receipt && 0 < previous.verifiedAt <= r.now {
            return SupersededSince(previous.verifiedAt);
          }
          return Superseded;
        }
        if !r.force && previous.digest == r.payload && 0 <= r.now - previous.verifiedAt < CARD_REFRESH {
          if r.revision == previous.revision {
            accepted := accepted + [Entry(r.revision, r.payload)];
            return Delivered;
          }
          // Advance the ordering without refreshing the last confirmation.
          verifiedNow := previous.verifiedAt;
        } else {
          if !a.editReaches {
            return NotDelivered;
          }
          if previous.message in live {
            live := live[previous.message := r.payload];
          } else {
            message := None;
            confirmedDeletions := confirmedDeletions + 1;
          }
        }
      }
      if message.None? {
        if !a.createReaches {
          return NotDelivered;
        }
        message := Some(nextMessage);
        live := live[nextMessage := r.payload];
        nextMessage := nextMessage + 1;
        creates := creates + 1;
        lostCreates := lostCreates + if a.recordWritten then 0 else 1;
      }
      if !a.recordWritten {
        return NotDelivered;
      }
      stored := Some(Stored(message.value, r.payload, verifiedNow, r.revision));
      accepted := accepted + [Entry(r.revision, r.payload)];
      outcome := Delivered;
    }
  }
}
