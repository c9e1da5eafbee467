/** Case identifiers in the order of the candidate queries: code-point
    lexicographic, with the empty cursor before every identifier. */
module Ids {

  predicate Before(a: string, b: string) {
    if b == "" then false
    else if a == "" then true
    else a[0] < b[0] || (a[0] == b[0] && Before(a[1..], b[1..]))
  }

  /** Two texts are ordered by the first character in which they differ, and a text comes
      after its own beginnings. */
  lemma {:induction false} BeforeAt(a: string, b: string, n: nat)
    requires n <= |a| && n <= |b| && a[..n] == b[..n]
    ensures n == |a| < |b| ==> Before(a, b)
    ensures n < |a| && n < |b| && a[n] < b[n] ==> Before(a, b) && !Before(b, a)
  {
    if n > 0 {
      assert a[0] == a[..n][0] == b[..n][0] == b[0];
      assert a[1..][..n - 1] == a[..n][1..] == b[..n][1..] == b[1..][..n - 1];
      BeforeAt(a[1..], b[1..], n - 1);
    }
  }

  lemma {:induction false} Irreflexive(a: string)
    ensures !Before(a, a)
  {
    if a != "" {
      Irreflexive(a[1..]);
    }
  }

  lemma {:induction false} Transitive(a: string, b: string, c: string)
    requires Before(a, b) && Before(b, c)
    ensures Before(a, c)
  {
    if a != "" && a[0] == b[0] && b[0] == c[0] {
      Transitive(a[1..], b[1..], c[1..]);
    }
  }

  lemma {:induction false} Total(a: string, b: string)
    ensures Before(a, b) || a == b || Before(b, a)
  {
    if a != "" && b != "" && a[0] == b[0] {
      Total(a[1..], b[1..]);
      assert a == [a[0]] + a[1..] && b == [b[0]] + b[1..];
    }
  }

  lemma {:induction false} LeastExists(s: set<string>) returns (m: string)
    requires s != {}
    ensures m in s && forall x :: x in s && x != m ==> Before(m, x)
  {
    var y :| y in s;
    var t := s - {y};
    assert s == t + {y};
    if t == {} {
      m := y;
    } else {
      var n := LeastExists(t);
      Total(y, n);
      if Before(y, n) {
        m := y;
        forall x | x in s && x != m ensures Before(m, x) {
          if x != n {
            Transitive(y, n, x);
          }
        }
      } else {
        m := n;
      }
    }
  }
}
