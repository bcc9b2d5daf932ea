/** Decimal numerals and splitting at separators. */
module Text {

  predicate IsDigit(c: char) {
    '0' <= c <= '9'
  }

  predicate AllDigits(s: string) {
    forall i :: 0 <= i < |s| ==> IsDigit(s[i])
  }

  function Digit(n: nat): (c: char)
    requires n < 10
    ensures IsDigit(c)
  {
    '0' + n as char
  }

  /** The number a digit string denotes. */
  function Value(s: string): nat
    requires AllDigits(s)
  {
    if s == "" then 0 else 10 * Value(s[..|s| - 1]) + (s[|s| - 1] - '0') as nat
  }

  /** A natural number without leading zeros. */
  function NatText(n: nat): string {
    if n < 10 then [Digit(n)] else NatText(n / 10) + [Digit(n % 10)]
  }

  function IntText(n: int): string {
    if n < 0 then "-" + NatText(-n) else NatText(n)
  }

  /** The last `width` decimal digits of a number. */
  function Fixed(n: nat, width: nat): (s: string)
    ensures |s| == width
  {
    if width == 0 then "" else Fixed(n / 10, width - 1) + [Digit(n % 10)]
  }

  function Pow10(k: nat): (p: nat)
    ensures p > 0
  {
    if k == 0 then 1 else 10 * Pow10(k - 1)
  }

  lemma {:induction false} NatTextValue(n: nat)
    ensures AllDigits(NatText(n)) && NatText(n) != "" && Value(NatText(n)) == n
  {
    if n < 10 {
      assert NatText(n)[..0] == "";
    } else {
      NatTextValue(n / 10);
      var t := NatText(n / 10);
      assert (t + [Digit(n % 10)])[..|t|] == t;
    }
  }

  lemma {:induction false} FixedValue(n: nat, width: nat)
    requires n < Pow10(width)
    ensures AllDigits(Fixed(n, width)) && Value(Fixed(n, width)) == n
  {
    if width > 0 {
      FixedValue(n / 10, width - 1);
      var t := Fixed(n / 10, width - 1);
      assert (t + [Digit(n % 10)])[..|t|] == t;
    }
  }

  /** A numeral without leading zeros is the fixed-width numeral of its length. */
  lemma {:induction false} NatTextIsFixed(n: nat)
    ensures NatText(n) == Fixed(n, |NatText(n)|) && (n > 0 ==> Pow10(|NatText(n)| - 1) <= n) && n < Pow10(|NatText(n)|)
  {
    if n < 10 {
      assert Fixed(n, 1) == Fixed(n / 10, 0) + [Digit(n % 10)];
    } else {
      NatTextIsFixed(n / 10);
    }
  }

  lemma IntTextInjective(m: int, n: int)
    requires IntText(m) == IntText(n)
    ensures m == n
  {
    NatTextValue(if m < 0 then -m else m);
    NatTextValue(if n < 0 then -n else n);
    if m < 0 {
      assert IntText(m)[0] == '-' && IntText(m)[1..] == NatText(-m);
    }
    if n < 0 {
      assert IntText(n)[0] == '-' && IntText(n)[1..] == NatText(-n);
    }
  }

  /** Two texts with the same first separator agree before it and after it. */
  lemma {:induction false} SplitAtFirst(a: string, b: string, x: string, y: string, sep: char)
    requires a + [sep] + x == b + [sep] + y && sep !in a && sep !in b
    ensures a == b && x == y
  {
    var s, t := a + [sep] + x, b + [sep] + y;
    assert s[|a|] == sep && t[|b|] == sep;
    assert forall i :: 0 <= i < |a| ==> s[i] == a[i];
    assert forall i :: 0 <= i < |b| ==> t[i] == b[i];
    assert |a| == |b|;
    assert s[..|a|] == a && t[..|b|] == b && s[|a| + 1..] == x && t[|b| + 1..] == y;
  }

  lemma {:induction false} SplitAtLast(a: string, b: string, x: string, y: string, sep: char)
    requires x + [sep] + a == y + [sep] + b && sep !in a && sep !in b
    ensures a == b && x == y
  {
    var s, t := x + [sep] + a, y + [sep] + b;
    assert s[|x|] == sep && t[|y|] == sep;
    assert forall i :: |x| < i < |s| ==> s[i] == a[i - |x| - 1];
    assert forall i :: |y| < i < |t| ==> t[i] == b[i - |y| - 1];
    assert |x| == |y|;
    assert s[..|x|] == x && t[..|y|] == y && s[|x| + 1..] == a && t[|y| + 1..] == b;
  }

  /** The pieces of a text between its separators. */
  function SplitOn(sep: char, s: string, current: string): seq<string> {
    if s == "" then [current]
    else if s[0] == sep then [current] + SplitOn(sep, s[1..], "")
    else SplitOn(sep, s[1..], current + [s[0]])
  }

  lemma {:induction false} SplitWhole(sep: char, w: string, current: string)
    requires sep !in w
    ensures SplitOn(sep, w, current) == [current + w]
  {
    if w == "" {
      assert current + w == current;
    } else {
      SplitWhole(sep, w[1..], current + [w[0]]);
      assert current + [w[0]] + w[1..] == current + w;
    }
  }

  lemma {:induction false} SplitFirst(sep: char, w: string, rest: string, current: string)
    requires sep !in w
    ensures SplitOn(sep, w + [sep] + rest, current) == [current + w] + SplitOn(sep, rest, "")
  {
    var s := w + [sep] + rest;
    if w == "" {
      assert s[0] == sep && s[1..] == rest && current + w == current;
    } else {
      assert s[0] == w[0] && s[1..] == w[1..] + [sep] + rest;
      SplitFirst(sep, w[1..], rest, current + [w[0]]);
      assert current + [w[0]] + w[1..] == current + w;
    }
  }
}
