/** Cursor paging over the candidate queries: what a scheduler that resumes from
    the last id it saw, and starts over after a short page, guarantees. */
module Paging {
  import opened Ids
  import opened Types

  predicate Ascending(page: seq<string>) {
    forall i, j :: 0 <= i < j < |page| ==> Before(page[i], page[j])
  }

  /** `page` is what `WHERE id > after ORDER BY id LIMIT limit` returns over `candidates`. */
  predicate IsPage(page: seq<string>, candidates: set<string>, after: string, limit: nat) {
    && Ascending(page)
    && |page| <= limit
    && (forall i :: 0 <= i < |page| ==> page[i] in candidates && Before(after, page[i]))
    && (forall c :: c in candidates && Before(after, c) && c !in page ==>
          |page| == limit && (forall i :: 0 <= i < |page| ==> Before(page[i], c)))
  }

  /** The cursor the scheduler stores after a page: empty means start over. */
  function NextCursor(page: seq<string>, limit: nat): string {
    if |page| == limit && limit > 0 then page[|page| - 1] else ""
  }

  /** The page size a query actually uses. */
  function PageLimit(limit: int): (r: nat)
    ensures r <= 1000 && (0 <= limit <= 1000 ==> r == limit) && (limit < 0 ==> r == 0) && (limit > 1000 ==> r == 1000)
  {
    Max(0, Min(limit, 1000))
  }

  /** The ordered, limited selection of the candidate queries. */
  method SelectPage(candidates: set<string>, after: string, limit: nat) returns (page: seq<string>)
    ensures IsPage(page, candidates, after, limit)
  {
    var rest := set c | c in candidates && Before(after, c);
    page := [];
    while rest != {} && |page| < limit
      invariant Ascending(page) && |page| <= limit
      invariant forall c :: c in rest ==> c in candidates && Before(after, c)
      invariant forall i :: 0 <= i < |page| ==> page[i] in candidates && Before(after, page[i]) && page[i] !in rest
      invariant forall i, c :: 0 <= i < |page| && c in rest ==> Before(page[i], c)
      invariant forall c :: c in candidates && Before(after, c) && c !in page ==> c in rest
      decreases rest
    {
      ghost var smallest := LeastExists(rest);
      var least :| least in rest && forall x :: x in rest && x != least ==> Before(least, x);
      page := page + [least];
      rest := rest - {least};
    }
  }

  /** One scheduler tick: the candidates present when the page was read, and the page. */
  datatype Tick = Tick(candidates: set<string>, page: seq<string>)

  function Cursor(ticks: seq<Tick>, limit: nat): string {
    if ticks == [] then "" else NextCursor(ticks[|ticks| - 1].page, limit)
  }

  function Visits(ticks: seq<Tick>): seq<string> {
    if ticks == [] then [] else Visits(ticks[..|ticks| - 1]) + ticks[|ticks| - 1].page
  }

  /** Consecutive ticks since the cursor last wrapped: each page continues from
      the previous cursor, which has stayed non-empty in between. */
  predicate Walk(ticks: seq<Tick>, limit: nat) {
    && (forall i :: 0 <= i < |ticks| ==> IsPage(ticks[i].page, ticks[i].candidates, Cursor(ticks[..i], limit), limit))
    && (forall i :: 0 < i < |ticks| ==> Cursor(ticks[..i], limit) != "")
  }

  /** A walk whose last tick wraps the cursor. */
  predicate Sweep(ticks: seq<Tick>, limit: nat) {
    ticks != [] && Walk(ticks, limit) && Cursor(ticks, limit) == ""
  }

  lemma WalkPrefix(ticks: seq<Tick>, limit: nat)
    requires ticks != [] && Walk(ticks, limit)
    ensures Walk(ticks[..|ticks| - 1], limit)
  {
    var init := ticks[..|ticks| - 1];
    forall i | 0 <= i < |init|
      ensures IsPage(init[i].page, init[i].candidates, Cursor(init[..i], limit), limit)
      ensures i > 0 ==> Cursor(init[..i], limit) != ""
    {
      assert init[..i] == ticks[..i];
    }
  }

  /** A tick continues a walk whose cursor has not wrapped, and otherwise starts the next. */
  function NextWalk(ticks: seq<Tick>, tick: Tick, limit: nat): seq<Tick> {
    if Cursor(ticks, limit) == "" then [tick] else ticks + [tick]
  }

  lemma WalkExtends(ticks: seq<Tick>, tick: Tick, limit: nat)
    requires Walk(ticks, limit) && IsPage(tick.page, tick.candidates, Cursor(ticks, limit), limit)
    ensures Walk(NextWalk(ticks, tick, limit), limit)
    ensures Cursor(NextWalk(ticks, tick, limit), limit) == NextCursor(tick.page, limit)
  {
    var next := NextWalk(ticks, tick, limit);
    if Cursor(ticks, limit) == "" {
      assert next[..0] == [];
    } else {
      forall i | 0 <= i < |next|
        ensures IsPage(next[i].page, next[i].candidates, Cursor(next[..i], limit), limit)
        ensures i > 0 ==> Cursor(next[..i], limit) != ""
      {
        if i < |ticks| {
          assert next[..i] == ticks[..i];
        } else {
          assert next[..i] == ticks;
        }
      }
    }
  }

  lemma NoIdBeforeEmpty(a: string, b: string)
    requires Before(a, b)
    ensures b != ""
  {
  }

  /** Within a walk ids are visited in strictly increasing order, never past the cursor. */
  lemma {:induction false} VisitsAscend(ticks: seq<Tick>, limit: nat)
    requires limit > 0 && Walk(ticks, limit)
    ensures Ascending(Visits(ticks))
    ensures Cursor(ticks, limit) != "" ==>
              forall i :: 0 <= i < |Visits(ticks)| ==>
                Visits(ticks)[i] == Cursor(ticks, limit) || Before(Visits(ticks)[i], Cursor(ticks, limit))
  {
    if ticks != [] {
      var n := |ticks| - 1;
      var init, page, cursor := ticks[..n], ticks[n].page, Cursor(ticks[..n], limit);
      WalkPrefix(ticks, limit);
      VisitsAscend(init, limit);
      assert IsPage(page, ticks[n].candidates, cursor, limit);
      var before, all := Visits(init), Visits(ticks);
      assert n > 0 ==> cursor != "";
      assert n == 0 ==> before == [];
      forall i, k | 0 <= i < |before| && 0 <= k < |page|
        ensures Before(before[i], page[k])
      {
        if before[i] != cursor {
          Transitive(before[i], cursor, page[k]);
        }
      }
      assert all == before + page;
      AscendingJoin(before, page);
    }
  }

  lemma AscendingJoin(a: seq<string>, b: seq<string>)
    requires Ascending(a) && Ascending(b)
    requires forall i, k :: 0 <= i < |a| && 0 <= k < |b| ==> Before(a[i], b[k])
    ensures Ascending(a + b)
  {
  }

  /** A candidate present at every tick of a walk is behind the cursor only if it was visited. */
  lemma {:induction false} PassedMeansVisited(ticks: seq<Tick>, limit: nat, c: string)
    requires limit > 0 && Walk(ticks, limit)
    requires forall i :: 0 <= i < |ticks| ==> c in ticks[i].candidates
    requires c != ""
    ensures c in Visits(ticks) || (Before(Cursor(ticks, limit), c) && (ticks != [] ==> Cursor(ticks, limit) != ""))
  {
    if ticks != [] {
      var n := |ticks| - 1;
      WalkPrefix(ticks, limit);
      PassedMeansVisited(ticks[..n], limit, c);
      var page := ticks[n].page;
      assert IsPage(page, ticks[n].candidates, Cursor(ticks[..n], limit), limit);
      if c in Visits(ticks[..n]) || c in page {
      } else {
        assert |page| == limit && Before(page[|page| - 1], c);
        NoIdBeforeEmpty(Cursor(ticks[..n], limit), page[|page| - 1]);
      }
    }
  }

  /** Paging never starves: between two wraps of the cursor every case that was
      a candidate throughout is visited exactly once, and visits are in id order,
      whatever other cases appear or vanish between ticks. */
  lemma SweepVisitsOnce(ticks: seq<Tick>, limit: nat, c: string)
    requires limit > 0 && Sweep(ticks, limit)
    requires c != "" && forall i :: 0 <= i < |ticks| ==> c in ticks[i].candidates
    ensures Ascending(Visits(ticks))
    ensures exists i :: 0 <= i < |Visits(ticks)| && Visits(ticks)[i] == c
                        && forall j :: 0 <= j < |Visits(ticks)| && Visits(ticks)[j] == c ==> j == i
  {
    VisitsAscend(ticks, limit);
    PassedMeansVisited(ticks, limit, c);
    var all := Visits(ticks);
    var i :| 0 <= i < |all| && all[i] == c;
    Irreflexive(c);
    assert forall j :: 0 <= j < |all| && all[j] == c ==> j == i;
  }

  lemma {:induction false} VisitsSource(ticks: seq<Tick>, limit: nat, candidates: set<string>)
    requires Walk(ticks, limit)
    requires forall i :: 0 <= i < |ticks| ==> ticks[i].candidates == candidates
    ensures forall c :: c in Visits(ticks) ==> c in candidates && c != ""
  {
    if ticks != [] {
      var n := |ticks| - 1;
      WalkPrefix(ticks, limit);
      VisitsSource(ticks[..n], limit, candidates);
      var page := ticks[n].page;
      assert IsPage(page, candidates, Cursor(ticks[..n], limit), limit);
      forall c | c in page ensures c in candidates && c != "" {
        var k :| 0 <= k < |page| && page[k] == c;
        NoIdBeforeEmpty(Cursor(ticks[..n], limit), page[k]);
      }
    }
  }

  lemma {:induction false} FullPages(ticks: seq<Tick>, limit: nat)
    requires limit > 0 && Walk(ticks, limit)
    ensures ticks != [] ==> |Visits(ticks)| == (|ticks| - 1) * limit + |ticks[|ticks| - 1].page|
    ensures ticks != [] && Cursor(ticks, limit) != "" ==> |Visits(ticks)| == |ticks| * limit
  {
    if ticks != [] {
      var n := |ticks| - 1;
      WalkPrefix(ticks, limit);
      FullPages(ticks[..n], limit);
      if n > 0 {
        assert Cursor(ticks[..n], limit) != "";
      }
      assert (n + 1) * limit == n * limit + limit;
    }
  }

  lemma {:induction false} AscendingSize(s: seq<string>, elements: set<string>)
    requires Ascending(s) && forall c :: c in elements <==> c in s
    ensures |s| == |elements|
  {
    if s == [] {
      assert elements == {};
    } else {
      var n := |s| - 1;
      Irreflexive(s[n]);
      var rest := elements - {s[n]};
      assert s == s[..n] + [s[n]];
      forall c ensures c in rest <==> c in s[..n] {
        if c in s[..n] {
          var k :| 0 <= k < n && s[k] == c;
          assert Before(s[k], s[n]);
        }
      }
      AscendingSize(s[..n], rest);
    }
  }

  /** Over a fixed candidate set a sweep takes exactly floor(n / limit) + 1 ticks. */
  lemma SweepLength(ticks: seq<Tick>, limit: nat, candidates: set<string>)
    requires limit > 0 && Sweep(ticks, limit) && "" !in candidates
    requires forall i :: 0 <= i < |ticks| ==> ticks[i].candidates == candidates
    ensures |ticks| == |candidates| / limit + 1
  {
    var all := Visits(ticks);
    VisitsAscend(ticks, limit);
    VisitsSource(ticks, limit, candidates);
    forall c ensures c in candidates <==> c in all {
      if c in candidates {
        PassedMeansVisited(ticks, limit, c);
      }
    }
    AscendingSize(all, candidates);
    FullPages(ticks, limit);
    var last := ticks[|ticks| - 1].page;
    assert IsPage(last, candidates, Cursor(ticks[..|ticks| - 1], limit), limit);
    assert |last| < limit;
    assert |candidates| == (|ticks| - 1) * limit + |last|;
    DivisionStep(|candidates|, |ticks| - 1, limit, |last|);
  }

  /** Over a fixed candidate set the cursor wraps within floor(n / limit) + 1 ticks:
      no walk is longer, and one of that length has wrapped. */
  lemma WrapComes(ticks: seq<Tick>, limit: nat, candidates: set<string>)
    requires limit > 0 && Walk(ticks, limit) && "" !in candidates
    requires forall i :: 0 <= i < |ticks| ==> ticks[i].candidates == candidates
    ensures |ticks| <= |candidates| / limit + 1
    ensures |ticks| == |candidates| / limit + 1 ==> Cursor(ticks, limit) == ""
  {
    if ticks != [] && Cursor(ticks, limit) != "" {
      var all := Visits(ticks);
      VisitsAscend(ticks, limit);
      VisitsSource(ticks, limit, candidates);
      FullPages(ticks, limit);
      var visited := set c | c in all;
      AscendingSize(all, visited);
      FewerThan(visited, candidates);
      QuotientBound(|ticks|, limit, |candidates|);
    } else if ticks != [] {
      SweepLength(ticks, limit, candidates);
    }
  }

  lemma FewerThan(a: set<string>, b: set<string>)
    requires a <= b
    ensures |a| <= |b|
  {
    assert b == a + (b - a);
  }

  lemma QuotientBound(q: nat, limit: nat, n: nat)
    requires limit > 0 && q * limit <= n
    ensures q <= n / limit
  {
    var d := n / limit;
    assert n == d * limit + n % limit;
    if d < q {
      ProductGap(d, q, limit);
    }
  }

  lemma ProductGap(a: nat, b: nat, limit: nat)
    requires a < b
    ensures a * limit + limit <= b * limit
  {
    assert (b - a - 1) * limit >= 0;
    assert b * limit == a * limit + limit + (b - a - 1) * limit;
  }

  lemma DivisionStep(n: nat, q: nat, limit: nat, r: nat)
    requires limit > 0 && r < limit && n == q * limit + r
    ensures n / limit == q
  {
    var d := n / limit;
    assert n == d * limit + n % limit;
    if d < q {
      ProductGap(d, q, limit);
    } else if q < d {
      ProductGap(q, d, limit);
    }
  }
}
