/** UTC instants as `datetime.now(UTC).isoformat()` writes them into the job table.
    The queue is ordered by this text, so the text order has to be the order in time. */
module Timestamps {
  import opened Text

  datatype DateTime = DateTime(
    year: nat, month: nat, day: nat, hour: nat, minute: nat, second: nat, micro: nat)

  predicate Leap(y: nat) { y % 4 == 0 && (y % 100 != 0 || y % 400 == 0) }

  function DaysInMonth(y: nat, m: nat): nat {
    if m == 2 then (if Leap(y) then 29 else 28)
    else if m in {4, 6, 9, 11} then 30 else 31
  }

  predicate Valid(t: DateTime) {
    && 1 <= t.year <= 9999 && 1 <= t.month <= 12 && 1 <= t.day <= DaysInMonth(t.year, t.month)
    && t.hour < 24 && t.minute < 60 && t.second < 60 && t.micro < 1_000_000
  }

  type Utc = t: DateTime | Valid(t) witness DateTime(1, 1, 1, 0, 0, 0, 0)

  /** The fraction and offset: the fraction is left out when it is zero. */
  function Tail(t: Utc): string {
    (if t.micro == 0 then "" else "." + Padded(t.micro, 6)) + "+00:00"
  }

  function Iso(t: Utc): string {
    Padded(t.year, 4) + ("-" + (Padded(t.month, 2) + ("-" + (Padded(t.day, 2) + ("T"
    + (Padded(t.hour, 2) + (":" + (Padded(t.minute, 2) + (":" + (Padded(t.second, 2) + Tail(t)))))))))))
  }

  // ----- chronological order: microseconds since 0001-01-01 -----

  function DaysBeforeYear(y: nat): int
    requires 1 <= y
  {
    (y - 1) * 365 + (y - 1) / 4 - (y - 1) / 100 + (y - 1) / 400
  }

  function DaysBeforeMonth(y: nat, m: nat): nat
    requires 1 <= m
  {
    if m == 1 then 0 else DaysBeforeMonth(y, m - 1) + DaysInMonth(y, m - 1)
  }

  function Ordinal(t: Utc): int {
    DaysBeforeYear(t.year) + DaysBeforeMonth(t.year, t.month) + t.day
  }

  function Microseconds(t: Utc): int {
    (((Ordinal(t) * 24 + t.hour) * 60 + t.minute) * 60 + t.second) * 1_000_000 + t.micro
  }

  /** Calendar order: the first field that differs decides. */
  predicate Earlier(a: Utc, b: Utc) {
    a.year < b.year || (a.year == b.year && (
    a.month < b.month || (a.month == b.month && (
    a.day < b.day || (a.day == b.day && (
    a.hour < b.hour || (a.hour == b.hour && (
    a.minute < b.minute || (a.minute == b.minute && (
    a.second < b.second || (a.second == b.second && a.micro < b.micro)))))))))))
  }

  lemma {:induction false} MonthsFit(y: nat, m: nat, n: nat)
    requires 1 <= m < n
    ensures DaysBeforeMonth(y, m) + DaysInMonth(y, m) <= DaysBeforeMonth(y, n)
  {
    if m < n - 1 {
      MonthsFit(y, m, n - 1);
    }
  }

  lemma YearLength(y: nat)
    requires 1 <= y
    ensures DaysBeforeMonth(y, 12) + 31 == if Leap(y) then 366 else 365
  {
    var feb := DaysInMonth(y, 2);
    assert DaysBeforeMonth(y, 3) == 31 + feb by { assert DaysBeforeMonth(y, 2) == 31; }
    assert DaysBeforeMonth(y, 5) == 92 + feb by { assert DaysBeforeMonth(y, 4) == 62 + feb; }
    assert DaysBeforeMonth(y, 7) == 153 + feb by { assert DaysBeforeMonth(y, 6) == 123 + feb; }
    assert DaysBeforeMonth(y, 9) == 215 + feb by { assert DaysBeforeMonth(y, 8) == 184 + feb; }
    assert DaysBeforeMonth(y, 11) == 276 + feb by { assert DaysBeforeMonth(y, 10) == 245 + feb; }
  }

  lemma QuotientStep(y: nat)
    requires 1 <= y
    ensures y / 4 == (y - 1) / 4 + if y % 4 == 0 then 1 else 0
    ensures y / 100 == (y - 1) / 100 + if y % 100 == 0 then 1 else 0
    ensures y / 400 == (y - 1) / 400 + if y % 400 == 0 then 1 else 0
  {
  }

  lemma NextYear(y: nat)
    requires 1 <= y
    ensures DaysBeforeYear(y + 1) == DaysBeforeYear(y) + if Leap(y) then 366 else 365
  {
    QuotientStep(y);
    if y % 400 == 0 { MultipleOfFourHundred(y); }
    if y % 100 == 0 { MultipleOfHundred(y); }
  }

  lemma MultipleOfHundred(y: nat)
    requires y % 100 == 0
    ensures y % 4 == 0
  {
    var q := y / 100;
    assert y == 100 * q == 4 * (25 * q);
    MultipleOfFour(25 * q);
  }

  lemma MultipleOfFour(k: nat)
    ensures (4 * k) % 4 == 0
  {
  }

  lemma MultipleOfFourHundred(y: nat)
    requires y % 400 == 0
    ensures y % 100 == 0
  {
    var q := y / 400;
    assert y == 100 * (4 * q);
  }

  lemma {:induction false} YearsFit(y: nat, z: nat)
    requires 1 <= y < z
    ensures DaysBeforeYear(y) + DaysBeforeMonth(y, 12) + 31 <= DaysBeforeYear(z)
  {
    YearLength(y);
    NextYear(z - 1);
    if y < z - 1 {
      YearsFit(y, z - 1);
    }
  }

  lemma EarlierDay(a: Utc, b: Utc)
    requires a.year < b.year || (a.year == b.year && (a.month < b.month || (a.month == b.month && a.day < b.day)))
    ensures Ordinal(a) < Ordinal(b)
  {
    if a.year < b.year {
      YearsFit(a.year, b.year);
      if a.month < 12 {
        MonthsFit(a.year, a.month, 12);
      }
    } else if a.month < b.month {
      MonthsFit(a.year, a.month, b.month);
    }
  }

  lemma EarlierIsSooner(a: Utc, b: Utc)
    ensures Earlier(a, b) <==> Microseconds(a) < Microseconds(b)
  {
    if Earlier(a, b) {
      SoonerWhenEarlier(a, b);
    } else if a != b {
      SoonerWhenEarlier(b, a);
    }
  }

  lemma SoonerWhenEarlier(a: Utc, b: Utc)
    requires Earlier(a, b)
    ensures Microseconds(a) < Microseconds(b)
  {
    if a.year == b.year && a.month == b.month && a.day == b.day {
      assert Ordinal(a) == Ordinal(b);
    } else {
      EarlierDay(a, b);
    }
  }

  // ----- text order -----

  lemma FirstCharacters(x: string, y: string)
    requires x != "" && y != "" && x[0] < y[0]
    ensures TextLess(x, y) && !TextLess(y, x)
  {
  }

  /** A whole second has no fraction at all, and '+' sorts before '.'. */
  lemma TailOrder(a: Utc, b: Utc)
    ensures TextLess(Tail(a), Tail(b)) <==> a.micro < b.micro
  {
    TextLessTotal(Tail(a), Tail(a));
    if a.micro == 0 && b.micro > 0 {
      FirstCharacters(Tail(a), Tail(b));
    } else if b.micro == 0 && a.micro > 0 {
      FirstCharacters(Tail(b), Tail(a));
    } else if a.micro > 0 && b.micro > 0 {
      var z := "+00:00";
      TextLessTotal(z, z);
      assert Tail(a) == "." + (Padded(a.micro, 6) + z) && Tail(b) == "." + (Padded(b.micro, 6) + z);
      FractionOrder(a.micro, b.micro, z);
    }
  }

  lemma FractionOrder(m: nat, n: nat, z: string)
    requires m < 1_000_000 && n < 1_000_000 && !TextLess(z, z)
    ensures TextLess("." + (Padded(m, 6) + z), "." + (Padded(n, 6) + z)) <==> m < n
  {
    SamePrefixOrder(".", Padded(m, 6) + z, Padded(n, 6) + z);
    assert Pow10(2) == 100 && Pow10(4) == 10_000 && Pow10(6) == 1_000_000;
    PaddedOrder(m, n, 6, z, z);
  }

  lemma FieldOrder(m: nat, n: nat, sep: string, x: string, y: string)
    requires m < 100 && n < 100
    ensures TextLess(sep + (Padded(m, 2) + x), sep + (Padded(n, 2) + y))
       <==> m < n || (m == n && TextLess(x, y))
  {
    assert Pow10(2) == 100 by { assert Pow10(1) == 10; }
    SamePrefixOrder(sep, Padded(m, 2) + x, Padded(n, 2) + y);
    PaddedOrder(m, n, 2, x, y);
  }

  function Clock(t: Utc): string {
    "T" + (Padded(t.hour, 2) + (":" + (Padded(t.minute, 2) + (":" + (Padded(t.second, 2) + Tail(t))))))
  }

  lemma ClockOrder(a: Utc, b: Utc)
    ensures TextLess(Clock(a), Clock(b)) <==>
      a.hour < b.hour || (a.hour == b.hour && (a.minute < b.minute || (a.minute == b.minute &&
      (a.second < b.second || (a.second == b.second && a.micro < b.micro)))))
  {
    TailOrder(a, b);
    FieldOrder(a.second, b.second, ":", Tail(a), Tail(b));
    var sa, sb := ":" + (Padded(a.second, 2) + Tail(a)), ":" + (Padded(b.second, 2) + Tail(b));
    FieldOrder(a.minute, b.minute, ":", sa, sb);
    FieldOrder(a.hour, b.hour, "T", ":" + (Padded(a.minute, 2) + sa), ":" + (Padded(b.minute, 2) + sb));
  }

  /** Sorting the stored text sorts the instants, although a whole second is written
      without its fraction and so is shorter than its neighbours. */
  lemma TextOrderIsTimeOrder(a: Utc, b: Utc)
    ensures TextLess(Iso(a), Iso(b)) <==> Microseconds(a) < Microseconds(b)
  {
    EarlierIsSooner(a, b);
    ClockOrder(a, b);
    FieldOrder(a.day, b.day, "-", Clock(a), Clock(b));
    var da, db := "-" + (Padded(a.day, 2) + Clock(a)), "-" + (Padded(b.day, 2) + Clock(b));
    FieldOrder(a.month, b.month, "-", da, db);
    var ma, mb := "-" + (Padded(a.month, 2) + da), "-" + (Padded(b.month, 2) + db);
    assert Pow10(4) == 10_000 by { assert Pow10(2) == 100 by { assert Pow10(1) == 10; } }
    PaddedOrder(a.year, b.year, 4, ma, mb);
    assert Iso(a) == Padded(a.year, 4) + ma && Iso(b) == Padded(b.year, 4) + mb;
  }
}
