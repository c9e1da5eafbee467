/** Decimal rendering and colon-joined keys, with the injectivity facts that
    make rendered identities as good as the fields they render. */
module Text {

  function Digit(d: nat): (c: char)
    requires d < 10
    ensures c == '0' + d as char
  {
    ['0', '1', '2', '3', '4', '5', '6', '7', '8', '9'][d]
  }

  function Decimal(n: nat): string {
    if n < 10 then [Digit(n)] else Decimal(n / 10) + [Digit(n % 10)]
  }

  predicate ColonFree(s: string) {
    ':' !in s
  }

  lemma {:induction false} DecimalColonFree(n: nat)
    ensures ColonFree(Decimal(n)) && Decimal(n) != ""
  {
    if n >= 10 {
      DecimalColonFree(n / 10);
    }
  }

  /** The decimal text determines the number. */
  lemma {:induction false} DecimalInjective(m: nat, n: nat)
    requires Decimal(m) == Decimal(n)
    ensures m == n
  {
    var s, t := Decimal(m), Decimal(n);
    assert s[|s| - 1] == Digit(m % 10) && t[|t| - 1] == Digit(n % 10);
    assert m % 10 == n % 10;
    if m >= 10 {
      DecimalColonFree(m / 10);
      assert |s| > 1;
    }
    if n >= 10 {
      DecimalColonFree(n / 10);
      assert |t| > 1;
    }
    if m >= 10 && n >= 10 {
      assert s[..|s| - 1] == Decimal(m / 10) && t[..|t| - 1] == Decimal(n / 10);
      DecimalInjective(m / 10, n / 10);
    }
  }

  /** Whatever precedes it, a last part without the separator, and what precedes it, can
      be read back from the joined text. */
  lemma LastPartInjective(sep: char, a: string, x: string, b: string, y: string)
    requires sep !in x && sep !in y && a + [sep] + x == b + [sep] + y
    ensures a == b && x == y
  {
    var s, t := a + [sep] + x, b + [sep] + y;
    assert s[|a|] == sep && t[|b|] == sep;
    assert forall k :: |a| < k < |s| ==> s[k] == x[k - |a| - 1];
    assert forall k :: |b| < k < |t| ==> t[k] == y[k - |b| - 1];
    assert |a| == |b|;
    assert a == s[..|a|] == t[..|b|] == b;
    assert x == s[|a| + 1..] == t[|b| + 1..] == y;
  }

  /** A colon-free last field and everything before it can be read back from
      the joined text, whatever the text before it contains. */
  lemma LastFieldInjective(a: string, x: string, b: string, y: string)
    requires ColonFree(x) && ColonFree(y)
    requires a + ":" + x == b + ":" + y
    ensures a == b && x == y
  {
    LastPartInjective(':', a, x, b, y);
  }

  /** The text after the last colon. */
  function LastField(s: string): (f: string)
    ensures ColonFree(f)
  {
    if s == "" || s[|s| - 1] == ':' then "" else LastField(s[..|s| - 1]) + [s[|s| - 1]]
  }

  lemma {:induction false} EndsInLastField(a: string, s: string) returns (b: string)
    ensures a + ":" + s == b + ":" + LastField(s)
  {
    if s == "" {
      b := a;
    } else if s[|s| - 1] == ':' {
      b := a + ":" + s[..|s| - 1];
      assert s == s[..|s| - 1] + ":";
      assert a + ":" + s == b + ":" + "";
    } else {
      b := EndsInLastField(a, s[..|s| - 1]);
      assert s == s[..|s| - 1] + [s[|s| - 1]];
      assert a + ":" + s == (a + ":" + s[..|s| - 1]) + [s[|s| - 1]];
    }
  }
}
