/** The identity of report requests (app/cases/service.py): one row for each state of a
    case that is reported, and one for each reminder of a report. */
module ReportKeys {
  import opened Types
  import opened Text
  import opened Outbox
  import opened Delivery
  import opened Fencing
  import opened CaseServices

  /** The key of a first report, or of the reminder of the report sent at `anchor`. */
  function ReportKey(caseId: string, digest: string, anchor: Option<string>): string {
    "report:" + caseId + ":" + digest + if anchor.Some? then ":reminder:" + anchor.value else ""
  }

  /** A digest is sixteen characters of lower-case hexadecimal. */
  predicate IsDigest(d: string) {
    |d| == 16 && forall k :: 0 <= k < 16 ==> '0' <= d[k] <= '9' || 'a' <= d[k] <= 'f'
  }

  /** What is needed of an ISO timestamp: it has no letter m, and less than sixteen
      characters follow its last colon. */
  predicate IsStamp(s: string) {
    'm' !in s && |LastField(s)| < 16
  }

  lemma DigestIsPlain(d: string)
    requires IsDigest(d)
    ensures ColonFree(d)
  {
  }

  /** A reminder and a first report never share a key: the one ends in a timestamp, the
      other in a digest. */
  lemma ReminderIsNoReport(p: string, s: string, q: string, d: string)
    requires IsStamp(s) && IsDigest(d)
    ensures p + ":reminder:" + s != q + ":" + d
  {
    DigestIsPlain(d);
    if p + ":reminder:" + s == q + ":" + d {
      var b := EndsInLastField(p + ":reminder", s);
      assert p + ":reminder:" + s == p + ":reminder" + ":" + s;
      LastFieldInjective(b, LastField(s), q, d);
    }
  }

  lemma ReminderSplits(p: string, s: string, q: string, t: string)
    requires IsStamp(s) && IsStamp(t) && p + ":reminder:" + s == q + ":reminder:" + t
    ensures p == q && s == t
  {
    assert ":reminder:" == ":re" + ['m'] + "inder:";
    assert p + ":reminder:" + s == (p + ":re") + ['m'] + ("inder:" + s);
    assert q + ":reminder:" + t == (q + ":re") + ['m'] + ("inder:" + t);
    LastPartInjective('m', p + ":re", "inder:" + s, q + ":re", "inder:" + t);
    assert s == ("inder:" + s)[6..] == ("inder:" + t)[6..] == t;
    assert p == (p + ":re")[..|p + ":re"| - 3] == (q + ":re")[..|q + ":re"| - 3] == q;
  }

  /** The key determines the case, the digest and the anchor, for any case id. */
  lemma ReportKeyInjective(c: string, d: string, a: Option<string>, c': string, d': string, a': Option<string>)
    requires IsDigest(d) && IsDigest(d') && (a.Some? ==> IsStamp(a.value)) && (a'.Some? ==> IsStamp(a'.value))
    requires ReportKey(c, d, a) == ReportKey(c', d', a')
    ensures c == c' && d == d' && a == a'
  {
    var p, q := "report:" + c + ":" + d, "report:" + c' + ":" + d';
    DigestIsPlain(d);
    DigestIsPlain(d');
    if a.Some? && a'.Some? {
      assert ReportKey(c, d, a) == p + ":reminder:" + a.value;
      assert ReportKey(c', d', a') == q + ":reminder:" + a'.value;
      ReminderSplits(p, a.value, q, a'.value);
    } else if a.Some? {
      assert ReportKey(c, d, a) == p + ":reminder:" + a.value;
      ReminderIsNoReport(p, a.value, "report:" + c', d');
    } else if a'.Some? {
      assert ReportKey(c', d', a') == q + ":reminder:" + a'.value;
      ReminderIsNoReport(q, a'.value, "report:" + c, d);
    } else {
      assert ReportKey(c, d, a) == p && ReportKey(c', d', a') == q;
    }
    assert p == q;
    LastFieldInjective("report:" + c, d, "report:" + c', d');
    assert c == ("report:" + c)[7..] == ("report:" + c')[7..] == c';
  }

  // ----- rows of report requests

  /** How signatures and instants are written. Every signature has a digest, and instants
      are told apart. */
  datatype Writing = Writing(digest: Signature -> string, since: Instant -> string) {
    ghost predicate Sound() {
      && (forall x :: IsDigest(digest(x)))
      && (forall x :: IsStamp(since(x))) && (forall x, y :: since(x) == since(y) ==> x == y)
    }

    function Anchor(at: Option<Instant>): Option<string> {
      if at.Some? then Some(since(at.value)) else None
    }
  }

  predicate Reports(v: Intent) {
    v.kind.ReportIntent? && !v.Attends()
  }

  /** A row named as the services name theirs: a report after its case, state and
      anchor, anything else not as a report; and no report of another state has the
      digest of `mine`. */
  predicate Named(v: Intent, n: Writing, mine: Signature) {
    if Reports(v) then
      && v.signature.Some? && (n.digest(v.signature.value) == n.digest(mine) ==> v.signature == Some(mine))
      && v.key == ReportKey(v.caseId, n.digest(v.signature.value), n.Anchor(v.payload.reminderSince))
    else !("report:" <= v.key)
  }

  predicate EnqueuesNamed(e: Event, n: Writing, mine: Signature) {
    e.OutboxWrite? && e.outboxOp.EnqueueIntent? ==> Named(e.outboxOp.intent, n, mine)
  }

  lemma NamedStep(w: World, e: Event, n: Writing, mine: Signature)
    requires Rows(w) && EnqueuesNamed(e, n, mine) && forall v :: v in w.seen ==> Named(v, n, mine)
    ensures forall v :: v in Apply(w, e).seen ==> Named(v, n, mine)
  {
    Effect(w, e);
    if Written(w, e).Some? {
      WrittenAdmissible(w, e);
      KeysEffect(w, e);
    }
  }

  lemma {:induction false} NamedAlways(now: Instant, reminderSeconds: int, events: seq<Event>, n: Writing,
                                       mine: Signature)
    requires forall k :: 0 <= k < |events| ==> EnqueuesNamed(events[k], n, mine)
    ensures var w := Run(Initial(now, reminderSeconds), events);
            Rows(w) && Indexed(w.db) && forall v :: v in w.seen ==> Named(v, n, mine)
  {
    if events != [] {
      var before, e := events[..|events| - 1], events[|events| - 1];
      NamedAlways(now, reminderSeconds, before, n, mine);
      RowsStep(Run(Initial(now, reminderSeconds), before), e);
      IndexedStep(Run(Initial(now, reminderSeconds), before), e);
      NamedStep(Run(Initial(now, reminderSeconds), before), e, n, mine);
    }
  }

  /** The request for a case in a state: with the case's report time written out. */
  function Requested(id: string, c: AtomicCase, signature: Signature, n: Writing, at: Instant): Intent {
    ReportRequest(id, c, signature, n.digest(signature), if c.lastReportedAt.Some? then n.since(c.lastReportedAt.value)
                  else "", at)
  }

  /** The report a request reminds of: the last one, if it was of this very state. */
  function AnchorOf(c: AtomicCase, signature: Signature): Option<Instant> {
    if c.lastReportedSignature == Some(signature) then c.lastReportedAt else None
  }

  lemma RequestIsNamed(id: string, c: AtomicCase, signature: Signature, n: Writing, at: Instant)
    ensures var i := Requested(id, c, signature, n, at);
            && Reports(i) && Named(i, n, signature) && i.caseId == c.caseId && i.signature == Some(signature)
            && i.payload.reminderSince == AnchorOf(c, signature)
  {
    var i, anchor := Requested(id, c, signature, n, at), AnchorOf(c, signature);
    if anchor.Some? {
      assert i.key == "report:" + c.caseId + ":" + n.digest(signature) + (":reminder:" + n.since(anchor.value));
      assert ":reminder:" + n.since(anchor.value) == (":reminder:") + n.since(anchor.value);
    }
    assert i.key == ReportKey(c.caseId, n.digest(signature), n.Anchor(anchor));
  }

  /** In every reachable state the row that answers a report request is the request's
      own: for its case, its state and its anchor. A reminder is never answered by the
      first report, nor by the reminder of another report. */
  lemma ReportRowIsItsOwn(now: Instant, reminderSeconds: int, events: seq<Event>, n: Writing, id: string, c: AtomicCase,
                          signature: Signature, at: Instant)
    requires n.Sound() && forall k :: 0 <= k < |events| ==> EnqueuesNamed(events[k], n, signature)
    ensures var w, i := Run(Initial(now, reminderSeconds), events), Requested(id, c, signature, n, at);
            Indexed(w.db) &&
            var row := FirstRow(w.db, i);
            && row.key == i.key && Reports(row) && row.caseId == c.caseId && row.signature == Some(signature)
            && row.payload.reminderSince == AnchorOf(c, signature)
  {
    NamedAlways(now, reminderSeconds, events, n, signature);
    RequestIsNamed(id, c, signature, n, at);
    var w, i := Run(Initial(now, reminderSeconds), events), Requested(id, c, signature, n, at);
    if i.key in w.db.keys {
      assert FirstRow(w.db, i) in w.seen;
      SameName(FirstRow(w.db, i), i, n, signature);
    }
  }

  lemma AnchorIsStamp(n: Writing, at: Option<Instant>)
    requires n.Sound()
    ensures n.Anchor(at).Some? ==> IsStamp(n.Anchor(at).value)
  {
    if at.Some? {
      var x: Instant := at.value;
      assert IsStamp(n.since(x));
    }
  }

  lemma AnchorInjective(n: Writing, a: Option<Instant>, b: Option<Instant>)
    requires n.Sound() && n.Anchor(a) == n.Anchor(b)
    ensures a == b
  {
    if a.Some? {
      var x: Instant, y: Instant := a.value, b.value;
      assert n.since(x) == n.since(y);
    }
  }

  lemma SameName(v: Intent, i: Intent, n: Writing, mine: Signature)
    requires n.Sound() && Named(v, n, mine) && Named(i, n, mine) && v.key == i.key
    requires Reports(i) && i.signature == Some(mine)
    ensures Reports(v) && v.caseId == i.caseId && v.signature == i.signature
    ensures v.payload.reminderSince == i.payload.reminderSince
  {
    var a, b := n.Anchor(v.payload.reminderSince), n.Anchor(i.payload.reminderSince);
    assert "report:" <= i.key;
    assert IsDigest(n.digest(mine)) && IsDigest(n.digest(v.signature.value));
    AnchorIsStamp(n, v.payload.reminderSince);
    AnchorIsStamp(n, i.payload.reminderSince);
    ReportKeyInjective(v.caseId, n.digest(v.signature.value), a, i.caseId, n.digest(mine), b);
    AnchorInjective(n, v.payload.reminderSince, i.payload.reminderSince);
  }
}
