/** Texts as the controllers use them: dictionary order, joining, numbers in decimal. */
module Texts {
  import opened Prelude

  /** Strings in dictionary order. */
  predicate LeText(a: string, b: string)
    decreases |a|
  {
    |a| == 0 || (|b| > 0 && (a[0] < b[0] || (a[0] == b[0] && LeText(a[1..], b[1..]))))
  }

  lemma {:induction false} LeTextTotal(a: string, b: string)
    ensures LeText(a, b) || LeText(b, a)
    decreases |a|
  {
    if |a| > 0 && |b| > 0 && a[0] == b[0] { LeTextTotal(a[1..], b[1..]); }
  }

  lemma {:induction false} LeTextAntisymmetric(a: string, b: string)
    requires LeText(a, b) && LeText(b, a)
    ensures a == b
    decreases |a|
  {
    if |a| > 0 {
      LeTextAntisymmetric(a[1..], b[1..]);
      assert a == [a[0]] + a[1..] && b == [b[0]] + b[1..];
    }
  }

  lemma {:induction false} LeTextTransitive(a: string, b: string, c: string)
    requires LeText(a, b) && LeText(b, c)
    ensures LeText(a, c)
    decreases |a|
  {
    if |a| > 0 && a[0] == b[0] && b[0] == c[0] { LeTextTransitive(a[1..], b[1..], c[1..]); }
  }

  lemma LeTextOrders()
    ensures TotalOrder(LeText)
  {
    forall a, b ensures LeText(a, b) || LeText(b, a) { LeTextTotal(a, b); }
    forall a, b | LeText(a, b) && LeText(b, a) ensures a == b { LeTextAntisymmetric(a, b); }
    forall a, b, c | LeText(a, b) && LeText(b, c) ensures LeText(a, c) { LeTextTransitive(a, b, c); }
  }

  function Join(parts: seq<string>, sep: char): string {
    if |parts| == 0 then ""
    else if |parts| == 1 then parts[0]
    else parts[0] + [sep] + Join(parts[1..], sep)
  }

  /** No part holds the separator. */
  ghost predicate Free(parts: seq<string>, sep: char) { forall i :: 0 <= i < |parts| ==> sep !in parts[i] }

  lemma FirstSeparator(a: string, p: string, b: string, q: string, sep: char)
    requires sep !in a && sep !in b && a + [sep] + p == b + [sep] + q
    ensures a == b && p == q
  {
    var s, t := a + [sep] + p, b + [sep] + q;
    assert s[|a|] == sep && t[|b|] == sep;
    assert |a| == |b|;
    assert a == s[..|a|] && b == t[..|b|];
    assert p == s[|a| + 1..] && q == t[|b| + 1..];
  }

  lemma {:induction false} JoinInjective(xs: seq<string>, ys: seq<string>, sep: char)
    requires |xs| > 0 && |ys| > 0 && Free(xs, sep) && Free(ys, sep)
    requires Join(xs, sep) == Join(ys, sep)
    ensures xs == ys
    decreases |xs|
  {
    if |xs| > 1 && |ys| > 1 {
      FirstSeparator(xs[0], Join(xs[1..], sep), ys[0], Join(ys[1..], sep), sep);
      JoinInjective(xs[1..], ys[1..], sep);
      assert xs == [xs[0]] + xs[1..] && ys == [ys[0]] + ys[1..];
    } else if |xs| > 1 || |ys| > 1 {
      assert false;
    }
  }

  lemma {:induction false} JoinFree(parts: seq<string>, sep: char, c: char)
    requires c != sep && Free(parts, c)
    ensures c !in Join(parts, sep)
  {
    if |parts| > 1 { JoinFree(parts[1..], sep, c); }
  }

  lemma JoinNonEmpty(parts: seq<string>, sep: char)
    requires |parts| > 0 && parts[0] != ""
    ensures Join(parts, sep) != ""
  {
  }

  // ---------- numbers as text ----------

  const DIGITS: string := "0123456789"

  function Digits(n: nat): (s: string)
    ensures |s| > 0 && (forall i :: 0 <= i < |s| ==> s[i] in DIGITS) && (|s| == 1 <==> n < 10)
  {
    if n < 10 then [DIGITS[n]] else Digits(n / 10) + [DIGITS[n % 10]]
  }

  function Decimal(n: int): string { if n < 0 then "-" + Digits(-n) else Digits(n) }

  lemma {:induction false} DigitsInjective(a: nat, b: nat)
    requires Digits(a) == Digits(b)
    ensures a == b
  {
    var s, t := Digits(a), Digits(b);
    assert s[|s| - 1] == DIGITS[a % 10] && t[|t| - 1] == DIGITS[b % 10];
    assert a % 10 == b % 10;
    if a >= 10 {
      assert s[..|s| - 1] == Digits(a / 10) && t[..|t| - 1] == Digits(b / 10);
      DigitsInjective(a / 10, b / 10);
    }
  }

  lemma SignShows(a: int, b: int)
    requires a < 0 <= b
    ensures Decimal(a) != Decimal(b)
  {
    assert Decimal(a)[0] == '-' && Decimal(b)[0] in DIGITS;
  }

  lemma MinusInjective(a: nat, b: nat)
    requires "-" + Digits(a) == "-" + Digits(b)
    ensures a == b
  {
    assert ("-" + Digits(a))[1..] == Digits(a) && ("-" + Digits(b))[1..] == Digits(b);
    DigitsInjective(a, b);
  }

  lemma DecimalInjective(a: int, b: int)
    requires Decimal(a) == Decimal(b)
    ensures a == b
  {
    if a < 0 <= b {
      SignShows(a, b);
    } else if b < 0 <= a {
      SignShows(b, a);
    } else if a < 0 {
      MinusInjective(-a, -b);
    } else {
      DigitsInjective(a, b);
    }
  }
}
