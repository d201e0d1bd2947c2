/** Text as the program and its database see it: the byte-wise order SQLite uses to
    sort TEXT columns, and decimal numbers with zero padding. */
module Text {

  /** SQLite's BINARY collation on ASCII text: lexicographic by character. */
  predicate TextLess(a: string, b: string) {
    b != [] && (a == [] || a[0] < b[0] || (a[0] == b[0] && TextLess(a[1..], b[1..])))
  }

  lemma {:induction false} TextLessTotal(a: string, b: string)
    ensures TextLess(a, b) || TextLess(b, a) || a == b
    ensures !(TextLess(a, b) && TextLess(b, a))
    ensures !TextLess(a, a)
  {
    if a != [] {
      TextLessTotal(a[1..], a[1..]);
    }
    if a != [] && b != [] {
      TextLessTotal(a[1..], b[1..]);
      assert a == [a[0]] + a[1..] && b == [b[0]] + b[1..];
    }
  }

  lemma {:induction false} TextLessTransitive(a: string, b: string, c: string)
    requires TextLess(a, b) && TextLess(b, c)
    ensures TextLess(a, c)
  {
    if a != [] && a[0] == b[0] == c[0] {
      TextLessTransitive(a[1..], b[1..], c[1..]);
    }
  }

  function Digit(d: nat): char
    requires d < 10
  {
    ('0' as int + d) as char
  }

  predicate IsDigit(c: char) { '0' <= c <= '9' }

  function DigitValue(c: char): nat
    requires IsDigit(c)
  {
    c as int - '0' as int
  }

  predicate AllDigits(s: string) { forall i :: 0 <= i < |s| ==> IsDigit(s[i]) }

  /** The decimal text of a natural number, as `str(n)`. */
  function Decimal(n: nat): (s: string)
    ensures s != [] && AllDigits(s)
  {
    if n < 10 then [Digit(n)] else Decimal(n / 10) + [Digit(n % 10)]
  }

  /** `f"{n:0wd}"`: at least `w` digits, zero-padded on the left. */
  function Padded(n: nat, w: nat): (s: string)
    ensures s != [] && AllDigits(s)
    decreases w
  {
    if w <= 1 then Decimal(n) else Padded(n / 10, w - 1) + [Digit(n % 10)]
  }

  /** The number a run of digits denotes. */
  function Number(s: string): nat
    requires AllDigits(s)
  {
    if s == [] then 0 else 10 * Number(s[..|s| - 1]) + DigitValue(s[|s| - 1])
  }

  lemma NumberAppend(s: string, d: nat)
    requires AllDigits(s) && d < 10
    ensures AllDigits(s + [Digit(d)]) && Number(s + [Digit(d)]) == 10 * Number(s) + d
  {
    var r := s + [Digit(d)];
    assert r[..|r| - 1] == s && r[|r| - 1] == Digit(d);
  }

  lemma {:induction false} NumberDecimal(n: nat)
    ensures Number(Decimal(n)) == n
  {
    if n >= 10 {
      NumberDecimal(n / 10);
      NumberAppend(Decimal(n / 10), n % 10);
    }
  }

  /** Padding never changes the number, whatever the width. */
  lemma {:induction false} NumberPadded(n: nat, w: nat)
    ensures Number(Padded(n, w)) == n
    decreases w
  {
    if w <= 1 {
      NumberDecimal(n);
    } else {
      NumberPadded(n / 10, w - 1);
      NumberAppend(Padded(n / 10, w - 1), n % 10);
    }
  }

  lemma DecimalInjective(m: nat, n: nat)
    requires Decimal(m) == Decimal(n)
    ensures m == n
  {
    NumberDecimal(m);
    NumberDecimal(n);
  }

  function Pow10(w: nat): nat { if w == 0 then 1 else 10 * Pow10(w - 1) }

  lemma {:induction false} PaddedLength(n: nat, w: nat)
    requires 0 < w && n < Pow10(w)
    ensures |Padded(n, w)| == w
    decreases w
  {
    if w > 1 {
      assert n / 10 < Pow10(w - 1);
      PaddedLength(n / 10, w - 1);
    } else {
      assert Pow10(1) == 10;
    }
  }

  /** Equal-width padded numbers sort as numbers; what follows them breaks ties. */
  lemma {:induction false} PaddedOrder(a: nat, b: nat, w: nat, x: string, y: string)
    requires 0 < w && a < Pow10(w) && b < Pow10(w)
    ensures TextLess(Padded(a, w) + x, Padded(b, w) + y)
       <==> a < b || (a == b && TextLess(x, y))
    decreases w
  {
    if w == 1 {
      assert Pow10(1) == 10;
      assert (Padded(a, 1) + x)[1..] == x && (Padded(b, 1) + y)[1..] == y;
    } else {
      var da, db := [Digit(a % 10)], [Digit(b % 10)];
      assert Padded(a, w) + x == Padded(a / 10, w - 1) + (da + x);
      assert Padded(b, w) + y == Padded(b / 10, w - 1) + (db + y);
      assert a / 10 < Pow10(w - 1) && b / 10 < Pow10(w - 1);
      PaddedOrder(a / 10, b / 10, w - 1, da + x, db + y);
      assert (da + x)[1..] == x && (db + y)[1..] == y;
    }
  }

  lemma {:induction false} SamePrefixOrder(p: string, x: string, y: string)
    ensures TextLess(p + x, p + y) <==> TextLess(x, y)
  {
    if p == [] {
      assert p + x == x && p + y == y;
    } else {
      assert (p + x)[1..] == p[1..] + x && (p + y)[1..] == p[1..] + y;
      SamePrefixOrder(p[1..], x, y);
    }
  }

  lemma {:induction false} PaddedAtLeast(n: nat, w: nat)
    ensures |Padded(n, w)| >= w
    decreases w
  {
    if w > 1 { PaddedAtLeast(n / 10, w - 1); }
  }

  /** Python's `separator.join(parts)`. */
  function JoinWith(separator: string, parts: seq<string>): string {
    if parts == [] then "" else if |parts| == 1 then parts[0] else parts[0] + separator + JoinWith(separator, parts[1..])
  }

  lemma {:induction false} JoinAppend(separator: string, a: seq<string>, b: seq<string>)
    requires a != [] && b != []
    ensures JoinWith(separator, a + b) == JoinWith(separator, a) + separator + JoinWith(separator, b)
  {
    if |a| == 1 {
      assert (a + b)[1..] == b;
    } else {
      assert (a + b)[1..] == a[1..] + b;
      JoinAppend(separator, a[1..], b);
    }
  }

  /** Joining may be done in two goes. */
  lemma JoinNested(separator: string, a: seq<string>, mid: seq<string>, b: seq<string>)
    requires a != [] && mid != [] && b != []
    ensures JoinWith(separator, a + mid + b) == JoinWith(separator, a + [JoinWith(separator, mid)] + b)
  {
    var one := [JoinWith(separator, mid)];
    JoinAppend(separator, a + mid, b);
    JoinAppend(separator, a, mid);
    JoinAppend(separator, a + one, b);
    JoinAppend(separator, a, one);
  }

  // ----- lines -----

  predicate OneLine(s: string) { '\n' !in s }

  function SplitLines(text: string): (lines: seq<string>)
    ensures lines != []
  {
    if text == "" then [""]
    else if text[0] == '\n' then [""] + SplitLines(text[1..])
    else
      var rest := SplitLines(text[1..]);
      [[text[0]] + rest[0]] + rest[1..]
  }

  lemma {:induction false} SplitFirstLine(line: string, rest: string)
    requires OneLine(line)
    ensures SplitLines(line) == [line]
    ensures SplitLines(line + "\n" + rest) == [line] + SplitLines(rest)
  {
    if line == "" {
      assert (line + "\n" + rest)[1..] == rest;
    } else {
      SplitFirstLine(line[1..], rest);
      assert (line + "\n" + rest)[1..] == line[1..] + "\n" + rest;
      assert [line[0]] + line[1..] == line;
    }
  }

  /** Splitting at newlines undoes joining with them. */
  lemma {:induction false} SplitJoin(lines: seq<string>)
    requires lines != [] && forall i :: 0 <= i < |lines| ==> OneLine(lines[i])
    ensures SplitLines(JoinWith("\n", lines)) == lines
  {
    if |lines| == 1 {
      SplitFirstLine(lines[0], "");
    } else {
      SplitJoin(lines[1..]);
      SplitFirstLine(lines[0], JoinWith("\n", lines[1..]));
    }
  }

  lemma {:induction false} SplitIsOneLine(text: string)
    ensures forall i :: 0 <= i < |SplitLines(text)| ==> OneLine(SplitLines(text)[i])
  {
    if text != "" {
      SplitIsOneLine(text[1..]);
    }
  }
}
