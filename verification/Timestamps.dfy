/** RFC 3339 timestamps: the printer of a schedule's instants, the parser of a schedule's Workflow IDs,
    and the identity of a schedule trigger.  Instants are in UTC with microsecond resolution. */
module Timestamps {
  import opened Text

  datatype Instant = Instant(year: nat, month: nat, day: nat, hour: nat, minute: nat, second: nat, micro: nat)

  predicate Leap(y: nat) {
    y % 4 == 0 && (y % 100 != 0 || y % 400 == 0)
  }

  function DaysIn(y: nat, m: nat): nat {
    if m == 2 then if Leap(y) then 29 else 28
    else if m == 4 || m == 6 || m == 9 || m == 11 then 30 else 31
  }

  predicate Valid(t: Instant) {
    && 1 <= t.year <= 9999 && 1 <= t.month <= 12 && 1 <= t.day <= DaysIn(t.year, t.month)
    && t.hour < 24 && t.minute < 60 && t.second < 60 && t.micro < 1000000
  }

  // ---------------------------------------------------------------------------
  // Nanoseconds since the epoch
  // ---------------------------------------------------------------------------

  function DaysBeforeYear(y: nat): int {
    (y - 1) * 365 + (y - 1) / 4 - (y - 1) / 100 + (y - 1) / 400
  }

  function DaysBeforeMonth(y: nat, m: nat): nat {
    if m <= 1 then 0 else DaysBeforeMonth(y, m - 1) + DaysIn(y, m - 1)
  }

  /** Days of the proleptic Gregorian calendar; 1 January of year 1 is day 1. */
  function Ordinal(t: Instant): int {
    DaysBeforeYear(t.year) + DaysBeforeMonth(t.year, t.month) + t.day
  }

  const EPOCH: int := 719163

  function EpochNanos(t: Instant): int {
    ((Ordinal(t) - EPOCH) * 86400 + t.hour * 3600 + t.minute * 60 + t.second) * 1000000000 + t.micro * 1000
  }

  lemma HundredsAreFours(y: nat, h: nat)
    requires y == 100 * h
    ensures y % 4 == 0
  {
    assert y == 4 * (25 * h);
  }

  lemma FourHundredsAreHundreds(y: nat, f: nat)
    requires y == 400 * f
    ensures y % 100 == 0
  {
    assert y == 100 * (4 * f);
  }

  lemma QuotientStep(y: nat)
    requires y >= 1
    ensures y / 4 == (y - 1) / 4 + if y % 4 == 0 then 1 else 0
    ensures y / 100 == (y - 1) / 100 + if y % 100 == 0 then 1 else 0
    ensures y / 400 == (y - 1) / 400 + if y % 400 == 0 then 1 else 0
  {
  }

  lemma YearSum(y: nat, a: int, b: int, c: int, a': int, b': int, c': int, four: bool, hundred: bool, all: bool)
    requires a == a' + (if four then 1 else 0) && b == b' + (if hundred then 1 else 0) && c == c' + (if all then 1 else 0)
    requires (hundred ==> four) && (all ==> hundred)
    ensures y * 365 + a - b + c == (y - 1) * 365 + a' - b' + c' + 365 + (if four && (!hundred || all) then 1 else 0)
  {
  }

  lemma YearStep(y: nat)
    requires y >= 1
    ensures DaysBeforeYear(y + 1) == DaysBeforeYear(y) + 365 + if Leap(y) then 1 else 0
  {
    QuotientStep(y);
    if y % 100 == 0 {
      HundredsAreFours(y, y / 100);
    }
    if y % 400 == 0 {
      FourHundredsAreHundreds(y, y / 400);
    }
    YearSum(y, y / 4, y / 100, y / 400, (y - 1) / 4, (y - 1) / 100, (y - 1) / 400, y % 4 == 0, y % 100 == 0, y % 400 == 0);
  }

  lemma {:induction false} YearsAreOrdered(y: nat, z: nat)
    requires 1 <= y < z
    ensures DaysBeforeYear(y) + 365 + (if Leap(y) then 1 else 0) <= DaysBeforeYear(z)
    decreases z - y
  {
    YearStep(y);
    hide DaysBeforeYear, Leap;
    if y + 1 < z {
      YearsAreOrdered(y + 1, z);
    }
  }

  lemma {:induction false} MonthsAreOrdered(y: nat, m: nat, n: nat)
    requires 1 <= m < n
    ensures DaysBeforeMonth(y, m) + DaysIn(y, m) <= DaysBeforeMonth(y, n)
  {
    if m + 1 < n {
      MonthsAreOrdered(y, m, n - 1);
    }
  }

  lemma YearLength(y: nat, m: nat)
    requires 1 <= m <= 12
    ensures DaysBeforeMonth(y, m) + DaysIn(y, m) <= 365 + if Leap(y) then 1 else 0
  {
    if m < 12 {
      MonthsAreOrdered(y, m, 12);
    }
    YearEnds(y);
  }

  /** Distinct dates have distinct ordinals. */
  lemma OrdinalInjective(t: Instant, u: Instant)
    requires Valid(t) && Valid(u) && Ordinal(t) == Ordinal(u)
    ensures t.year == u.year && t.month == u.month && t.day == u.day
  {
    YearLength(t.year, t.month);
    YearLength(u.year, u.month);
    if t.year < u.year {
      YearsAreOrdered(t.year, u.year);
    } else if u.year < t.year {
      YearsAreOrdered(u.year, t.year);
    } else if t.month < u.month {
      MonthsAreOrdered(t.year, t.month, u.month);
    } else if u.month < t.month {
      MonthsAreOrdered(t.year, u.month, t.month);
    }
  }

  /** The nanoseconds determine the instant. */
  lemma EpochNanosInjective(t: Instant, u: Instant)
    requires Valid(t) && Valid(u) && EpochNanos(t) == EpochNanos(u)
    ensures t == u
  {
    var a, b := t.hour * 3600 + t.minute * 60 + t.second, u.hour * 3600 + u.minute * 60 + u.second;
    assert (Ordinal(t) - EPOCH) * 86400 + a == (Ordinal(u) - EPOCH) * 86400 + b && t.micro == u.micro;
    assert Ordinal(t) == Ordinal(u) && a == b;
    OrdinalInjective(t, u);
  }

  /** The first instant of the day after. */
  function NextDay(t: Instant): Instant {
    if t.day < DaysIn(t.year, t.month) then Instant(t.year, t.month, t.day + 1, 0, 0, 0, 0)
    else if t.month < 12 then Instant(t.year, t.month + 1, 1, 0, 0, 0, 0)
    else Instant(t.year + 1, 1, 1, 0, 0, 0, 0)
  }

  /** The next microsecond, by the clock and the calendar. */
  function NextMicro(t: Instant): Instant {
    if t.micro < 999999 then t.(micro := t.micro + 1)
    else if t.second < 59 then t.(second := t.second + 1, micro := 0)
    else if t.minute < 59 then t.(minute := t.minute + 1, second := 0, micro := 0)
    else if t.hour < 23 then t.(hour := t.hour + 1, minute := 0, second := 0, micro := 0)
    else NextDay(t)
  }

  const LAST: Instant := Instant(9999, 12, 31, 23, 59, 59, 999999)

  lemma DaysFollow(t: Instant)
    requires Valid(t)
    ensures Ordinal(NextDay(t)) == Ordinal(t) + 1
  {
    if t.day == DaysIn(t.year, t.month) {
      if t.month < 12 {
        assert DaysBeforeMonth(t.year, t.month + 1) == DaysBeforeMonth(t.year, t.month) + DaysIn(t.year, t.month);
      } else {
        YearEnds(t.year);
        YearStep(t.year);
        hide Leap, DaysBeforeYear;
        assert DaysBeforeMonth(t.year + 1, 1) == 0;
      }
    }
  }

  lemma YearEnds(y: nat)
    ensures DaysBeforeMonth(y, 12) + DaysIn(y, 12) == 365 + if Leap(y) then 1 else 0
  {
    assert DaysBeforeMonth(y, 2) == 31;
    assert DaysBeforeMonth(y, 4) == DaysIn(y, 2) + 62;
    assert DaysBeforeMonth(y, 6) == DaysBeforeMonth(y, 4) + 61;
    assert DaysBeforeMonth(y, 8) == DaysBeforeMonth(y, 6) + 61;
    assert DaysBeforeMonth(y, 10) == DaysBeforeMonth(y, 8) + 61;
    assert DaysBeforeMonth(y, 12) == DaysBeforeMonth(y, 10) + 61;
  }

  /** The nanoseconds count from the first instant of 1970, 1000 for each microsecond of the calendar. */
  lemma NanosCountFromEpoch(t: Instant)
    requires Valid(t) && t != LAST
    ensures EpochNanos(Instant(1970, 1, 1, 0, 0, 0, 0)) == 0
    ensures Valid(NextMicro(t)) && EpochNanos(NextMicro(t)) == EpochNanos(t) + 1000
  {
    EpochIsDayZero();
    NextIsValid(t);
    DaysFollow(t);
    hide Ordinal, NextDay, DaysIn;
    if t.micro == 999999 && t.second == 59 && t.minute == 59 && t.hour == 23 {
      NextDayIsMidnight(t);
    } else {
      ClockKeepsDay(t, NextMicro(t));
    }
  }

  lemma NextIsValid(t: Instant)
    requires Valid(t) && t != LAST
    ensures Valid(NextMicro(t))
  {
  }

  lemma NextDayIsMidnight(t: Instant)
    ensures var n := NextDay(t); n.hour == n.minute == n.second == n.micro == 0
  {
  }

  lemma ClockKeepsDay(t: Instant, u: Instant)
    requires t.year == u.year && t.month == u.month && t.day == u.day
    ensures Ordinal(t) == Ordinal(u)
  {
  }

  lemma EpochIsDayZero()
    ensures Ordinal(Instant(1970, 1, 1, 0, 0, 0, 0)) == EPOCH
  {
  }

  /** A day is 86400 seconds, over the end of any month and year; leap days are those of the Gregorian calendar. */
  lemma DaysCountFromEpoch(t: Instant)
    requires Valid(t)
    ensures EpochNanos(NextDay(t)) == EpochNanos(Instant(t.year, t.month, t.day, 0, 0, 0, 0)) + 86400 * 1000000000
    ensures EpochNanos(Instant(2000, 3, 1, 0, 0, 0, 0)) == 951868800 * 1000000000
    ensures EpochNanos(Instant(2024, 3, 1, 0, 0, 0, 0)) == 1709251200 * 1000000000
    ensures EpochNanos(Instant(2100, 3, 1, 0, 0, 0, 0)) == 4107542400 * 1000000000
  {
    DaysFollow(t);
    assert DaysBeforeMonth(2000, 3) == 60 && DaysBeforeMonth(2024, 3) == 60 && DaysBeforeMonth(2100, 3) == 59;
    assert Ordinal(Instant(t.year, t.month, t.day, 0, 0, 0, 0)) == Ordinal(t);
  }

  // ---------------------------------------------------------------------------
  // The printer
  // ---------------------------------------------------------------------------

  function StripZeros(s: string): string {
    if s != "" && s[|s| - 1] == '0' then StripZeros(s[..|s| - 1]) else s
  }

  function Zeros(n: nat): string {
    seq(n, _ => '0')
  }

  function PadRight(s: string, width: nat): string {
    if |s| >= width then s else s + Zeros(width - |s|)
  }

  function Fraction(micro: nat): string {
    var f := StripZeros(Fixed(micro, 6));
    if f == "" then "" else "." + f
  }

  /** Everything after the year. */
  function AfterYear(t: Instant): string {
    "-" + Fixed(t.month, 2) + "-" + Fixed(t.day, 2) + "T" + Fixed(t.hour, 2) + ":" + Fixed(t.minute, 2)
    + ":" + Fixed(t.second, 2) + Fraction(t.micro) + "Z"
  }

  /** The year is printed without leading zeros. */
  function Rfc3339Nano(t: Instant): string {
    NatText(t.year) + AfterYear(t)
  }

  // ---------------------------------------------------------------------------
  // The parser
  // ---------------------------------------------------------------------------

  /** The text up to where the pattern must end: `$` also matches before a final newline. */
  function Body(s: string): string {
    if s != "" && s[|s| - 1] == '\n' then s[..|s| - 1] else s
  }

  /** The suffix pattern matches the body from position `p` on. */
  predicate Matches(u: string, p: nat) {
    && p + 21 <= |u| && u[|u| - 1] == 'Z'
    && u[p] == '-' && AllDigits(u[p + 1..p + 5]) && u[p + 5] == '-' && AllDigits(u[p + 6..p + 8])
    && u[p + 8] == '-' && AllDigits(u[p + 9..p + 11]) && u[p + 11] == 'T' && AllDigits(u[p + 12..p + 14])
    && u[p + 14] == ':' && AllDigits(u[p + 15..p + 17]) && u[p + 17] == ':' && AllDigits(u[p + 18..p + 20])
    && var tail := u[p + 20..|u| - 1];
       tail == "" || (2 <= |tail| <= 10 && tail[0] == '.' && AllDigits(tail[1..]))
  }

  datatype Option<T> = None | Some(value: T)

  /** The first position where the pattern matches. */
  function Search(u: string, p: nat): (m: Option<nat>)
    requires p <= |u|
    ensures m.Some? ==> p <= m.value && Matches(u, m.value)
    decreases |u| - p
  {
    if p == |u| then None else if Matches(u, p) then Some(p) else Search(u, p + 1)
  }

  datatype Parsed = Nanos(nanos: int) | ValueError

  function Fields(u: string, p: nat): Instant
    requires Matches(u, p)
  {
    Instant(Value(u[p + 1..p + 5]), Value(u[p + 6..p + 8]), Value(u[p + 9..p + 11]), Value(u[p + 12..p + 14]),
            Value(u[p + 15..p + 17]), Value(u[p + 18..p + 20]), 0)
  }

  lemma {:induction false} PaddedDigits(s: string, width: nat)
    requires AllDigits(s)
    ensures AllDigits(PadRight(s, width))
  {
  }

  function FractionNanos(tail: string): nat
    requires tail == "" || AllDigits(tail[1..])
  {
    var digits := PadRight(if tail == "" then "" else tail[1..], 9);
    PaddedDigits(if tail == "" then "" else tail[1..], 9);
    Value(digits)
  }

  /** The scheduled time of a Workflow ID, or a fallback when it has no timestamp suffix. */
  function ScheduledTimeNanos(workflowId: string, fallback: int): Parsed {
    var u := Body(workflowId);
    var m := Search(u, 0);
    if m.None? then Nanos(fallback)
    else
      var t := Fields(u, m.value);
      if !Valid(t) then ValueError
      else Nanos(EpochNanos(t) + FractionNanos(u[m.value + 20..|u| - 1]))
  }

  // ---------------------------------------------------------------------------
  // Fractions
  // ---------------------------------------------------------------------------

  /** Stripped zeros come back by padding. */
  lemma {:induction false} StripPad(s: string, width: nat)
    requires |s| <= width
    ensures PadRight(StripZeros(s), width) == PadRight(s, width) && |StripZeros(s)| <= |s|
    ensures AllDigits(s) ==> AllDigits(StripZeros(s))
  {
    if s != "" && s[|s| - 1] == '0' {
      var r := s[..|s| - 1];
      StripPad(r, width);
      assert s == r + "0" && "0" + Zeros(width - |s|) == Zeros(width - |r|);
      assert PadRight(s, width) == r + ("0" + Zeros(width - |s|));
    }
  }

  lemma ValueAppend(s: string, c: char)
    requires AllDigits(s) && IsDigit(c)
    ensures AllDigits(s + [c]) && Value(s + [c]) == 10 * Value(s) + (c - '0') as nat
  {
    assert (s + [c])[..|s|] == s;
  }

  lemma TimesTen(v: nat, p: nat)
    ensures v * (10 * p) == 10 * (v * p)
  {
  }

  lemma {:induction false} ValueZeros(s: string, n: nat)
    requires AllDigits(s)
    ensures AllDigits(s + Zeros(n)) && Value(s + Zeros(n)) == Value(s) * Pow10(n)
  {
    if n == 0 {
      assert s + Zeros(0) == s;
    } else {
      ValueZeros(s, n - 1);
      ValueAppend(s + Zeros(n - 1), '0');
      TimesTen(Value(s), Pow10(n - 1));
      assert s + Zeros(n - 1) + ['0'] == s + Zeros(n);
      hide Value, Zeros;
    }
  }

  /** A printed fraction reads back as its microseconds in nanoseconds. */
  lemma FractionRoundTrip(micro: nat)
    requires micro < 1000000
    ensures var f := Fraction(micro);
            && (f == "" || (2 <= |f| <= 7 && f[0] == '.' && AllDigits(f[1..])))
            && FractionNanos(f) == micro * 1000
  {
    var s := Fixed(micro, 6);
    assert Pow10(6) == 1000000 && Pow10(3) == 1000;
    FixedValue(micro, 6);
    StripPad(s, 9);
    ValueZeros(s, 3);
    var f := Fraction(micro);
    assert f != "" ==> f[1..] == StripZeros(s);
    assert PadRight(s, 9) == s + Zeros(3);
  }

  lemma FractionInjective(m: nat, n: nat)
    requires m < 1000000 && n < 1000000 && Fraction(m) == Fraction(n)
    ensures m == n
  {
    FractionRoundTrip(m);
    FractionRoundTrip(n);
  }

  // ---------------------------------------------------------------------------
  // The printed text
  // ---------------------------------------------------------------------------

  lemma TwoDigits(n: nat)
    requires n < 100
    ensures AllDigits(Fixed(n, 2)) && Value(Fixed(n, 2)) == n
  {
    assert Pow10(2) == 100;
    FixedValue(n, 2);
  }

  /** The text after the year, piece by piece. */
  lemma AfterYearParts(t: Instant)
    ensures var r := AfterYear(t);
            && |r| == 16 + |Fraction(t.micro)|
            && r[0] == '-' && r[1..3] == Fixed(t.month, 2) && r[3] == '-' && r[4..6] == Fixed(t.day, 2) && r[6] == 'T'
            && r[7..9] == Fixed(t.hour, 2) && r[9] == ':' && r[10..12] == Fixed(t.minute, 2) && r[12] == ':'
            && r[13..15] == Fixed(t.second, 2) && r[15..|r| - 1] == Fraction(t.micro) && r[|r| - 1] == 'Z'
  {
    hide Fixed, Fraction;
  }

  /** There is one `T`, and no newline. */
  lemma AfterYearCharacters(t: Instant, i: nat)
    requires Valid(t) && i < |AfterYear(t)|
    ensures AfterYear(t)[i] != '\n' && (AfterYear(t)[i] == 'T' <==> i == 6)
  {
    AfterYearParts(t);
    TwoDigits(t.month);
    TwoDigits(t.day);
    TwoDigits(t.hour);
    TwoDigits(t.minute);
    TwoDigits(t.second);
    FractionRoundTrip(t.micro);
    var r, f := AfterYear(t), Fraction(t.micro);
    hide Fixed, Fraction, AfterYear, Value, FractionNanos;
    if 1 <= i < 3 {
      assert r[i] == r[1..3][i - 1];
    } else if 4 <= i < 6 {
      assert r[i] == r[4..6][i - 4];
    } else if 7 <= i < 9 {
      assert r[i] == r[7..9][i - 7];
    } else if 10 <= i < 12 {
      assert r[i] == r[10..12][i - 10];
    } else if 13 <= i < 15 {
      assert r[i] == r[13..15][i - 13];
    } else if 15 <= i < |r| - 1 {
      assert r[i] == f[i - 15];
      assert i > 15 ==> f[i - 15] == f[1..][i - 16];
    }
  }

  /** A match of the pattern has its `T` eleven characters on, and no `T` after it. */
  lemma MatchHasLastT(u: string, p: nat, i: nat)
    requires Matches(u, p) && p + 11 < i < |u|
    ensures u[i] != 'T'
  {
    var tail := u[p + 20..|u| - 1];
    if i < p + 14 {
      assert u[i] == u[p + 12..p + 14][i - p - 12];
    } else if p + 15 <= i < p + 17 {
      assert u[i] == u[p + 15..p + 17][i - p - 15];
    } else if p + 18 <= i < p + 20 {
      assert u[i] == u[p + 18..p + 20][i - p - 18];
    } else if p + 20 <= i < |u| - 1 {
      assert u[i] == tail[i - p - 20];
      assert i > p + 20 ==> tail[i - p - 20] == tail[1..][i - p - 21];
    }
  }

  lemma MatchStarts(u: string, p: nat)
    requires Matches(u, p)
    ensures p + 21 <= |u| && u[p] == '-' && u[p + 11] == 'T'
    ensures forall i :: p + 1 <= i < p + 5 ==> u[i] != '-'
  {
    assert forall i :: p + 1 <= i < p + 5 ==> u[i] == u[p + 1..p + 5][i - p - 1];
  }

  lemma TextParts(prefix: string, t: Instant)
    ensures var u, k := prefix + "-" + Rfc3339Nano(t), |prefix| + 1 + |NatText(t.year)|;
            && u[|prefix|] == '-' && |u| == k + |AfterYear(t)|
            && forall i :: k <= i < |u| ==> u[i] == AfterYear(t)[i - k]
  {
    hide AfterYear, NatText;
  }

  /** So a match in an ID that ends with a timestamp starts at one place only. */
  lemma MatchPlace(prefix: string, t: Instant, p: nat)
    requires Valid(t) && Matches(prefix + "-" + Rfc3339Nano(t), p)
    ensures p == |prefix| && |NatText(t.year)| == 4
  {
    var u, k := prefix + "-" + Rfc3339Nano(t), |NatText(t.year)|;
    var q := |prefix| + 1 + k + 6;
    AfterYearParts(t);
    YearDigits(t.year);
    TextParts(prefix, t);
    MatchStarts(u, p);
    hide AfterYear, Fraction, NatText, Matches, Rfc3339Nano, Fixed;
    if q < p + 11 {
      AfterYearCharacters(t, p + 11 - |prefix| - 1 - k);
    } else if p + 11 < q {
      MatchHasLastT(u, p, q);
    }
  }

  lemma YearDigits(y: nat)
    requires 1 <= y <= 9999
    ensures 1 <= |NatText(y)| <= 4 && (|NatText(y)| == 4 <==> y >= 1000)
    ensures AllDigits(NatText(y)) && Value(NatText(y)) == y
  {
    NatTextValue(y);
    NatTextIsFixed(y);
    var k := |NatText(y)|;
    assert Pow10(3) == 1000 && Pow10(4) == 10000;
    if k > 4 {
      PowersGrow(4, k - 1);
    } else if k < 4 {
      PowersGrow(k, 3);
    }
  }

  lemma {:induction false} PowersGrow(j: nat, k: nat)
    requires j <= k
    ensures Pow10(j) <= Pow10(k)
  {
    if j < k {
      PowersGrow(j, k - 1);
    }
  }

  /** Slices of the ID are slices of its end. */
  lemma PiecesOf(u: string, p: nat, r: string)
    requires p + 21 <= |u| && u[p + 5..] == r
    ensures forall i :: 0 <= i < |r| ==> u[p + 5 + i] == r[i]
    ensures u[p + 6..p + 8] == r[1..3] && u[p + 9..p + 11] == r[4..6] && u[p + 12..p + 14] == r[7..9]
    ensures u[p + 15..p + 17] == r[10..12] && u[p + 18..p + 20] == r[13..15] && u[p + 20..|u| - 1] == r[15..|r| - 1]
  {
    assert forall i :: 0 <= i < |r| ==> u[p + 5 + i] == r[i];
  }

  /** Digit groups and separators in their places are a match. */
  lemma MatchFromPieces(u: string, p: nat, t: Instant)
    requires Valid(t) && t.year >= 1000 && p + 21 <= |u| && u[|u| - 1] == 'Z'
    requires u[p] == '-' && u[p + 5] == '-' && u[p + 8] == '-' && u[p + 11] == 'T' && u[p + 14] == ':' && u[p + 17] == ':'
    requires u[p + 1..p + 5] == NatText(t.year) && u[p + 6..p + 8] == Fixed(t.month, 2) && u[p + 9..p + 11] == Fixed(t.day, 2)
    requires u[p + 12..p + 14] == Fixed(t.hour, 2) && u[p + 15..p + 17] == Fixed(t.minute, 2)
    requires u[p + 18..p + 20] == Fixed(t.second, 2) && u[p + 20..|u| - 1] == Fraction(t.micro)
    ensures Matches(u, p) && Fields(u, p) == t.(micro := 0)
  {
    YearDigits(t.year);
    TwoDigits(t.month);
    TwoDigits(t.day);
    TwoDigits(t.hour);
    TwoDigits(t.minute);
    TwoDigits(t.second);
    FractionRoundTrip(t.micro);
    hide NatText, Fixed, Value, Fraction, FractionNanos, AllDigits;
  }

  lemma SlicesOf(prefix: string, year: string, r: string)
    requires |year| == 4
    ensures var u, p := prefix + "-" + (year + r), |prefix|;
            |u| == p + 5 + |r| && u[p] == '-' && u[p + 1..p + 5] == year && u[p + 5..] == r
  {
    var u, p := prefix + "-" + (year + r), |prefix|;
    assert u == (prefix + "-") + (year + r);
    assert u[p + 1..] == year + r;
    assert u[p + 1..][..4] == u[p + 1..p + 5] && u[p + 1..][4..] == u[p + 5..];
  }

  lemma MatchAtEnd(u: string, p: nat, t: Instant, r: string)
    requires Valid(t) && t.year >= 1000 && r == AfterYear(t)
    requires |u| == p + 5 + |r| && u[p] == '-' && u[p + 1..p + 5] == NatText(t.year) && u[p + 5..] == r
    ensures Matches(u, p) && Fields(u, p) == t.(micro := 0) && u[p + 20..|u| - 1] == Fraction(t.micro)
  {
    AfterYearParts(t);
    hide AfterYear, Fraction, NatText, Fixed, Value, Matches, Fields, AllDigits;
    PiecesOf(u, p, r);
    assert u[p + 5] == r[0] && u[p + 8] == r[3] && u[p + 11] == r[6] && u[p + 14] == r[9] && u[p + 17] == r[12];
    assert u[|u| - 1] == r[|r| - 1];
    MatchFromPieces(u, p, t);
  }

  /** The printed timestamp matches and reads back as its own fields. */
  lemma PrintedMatches(prefix: string, t: Instant)
    requires Valid(t) && t.year >= 1000
    ensures var u := prefix + "-" + Rfc3339Nano(t);
            Matches(u, |prefix|) && Fields(u, |prefix|) == t.(micro := 0) && u[|prefix| + 20..|u| - 1] == Fraction(t.micro)
  {
    YearDigits(t.year);
    SlicesOf(prefix, NatText(t.year), AfterYear(t));
    hide AfterYear, NatText, Fraction, Matches, Fields, Value, AllDigits;
    MatchAtEnd(prefix + "-" + Rfc3339Nano(t), |prefix|, t, AfterYear(t));
  }

  lemma {:induction false} SearchFinds(u: string, q: nat, p: nat)
    requires q <= |u|
    requires forall k: nat :: q <= k && Matches(u, k) ==> k == p
    ensures Search(u, q) == if q <= p && Matches(u, p) then Some(p) else None
    decreases |u| - q
  {
    hide Matches;
    if q < |u| && !Matches(u, q) {
      SearchFinds(u, q + 1, p);
    } else if q == |u| {
      NoMatchAtEnd(u, p);
    }
  }

  lemma NoMatchAtEnd(u: string, p: nat)
    ensures Matches(u, p) ==> p < |u|
  {
  }

  lemma BodyIsText(prefix: string, t: Instant)
    ensures Body(prefix + "-" + Rfc3339Nano(t)) == prefix + "-" + Rfc3339Nano(t)
  {
    TextParts(prefix, t);
    AfterYearParts(t);
    hide AfterYear, NatText, Rfc3339Nano, Fraction, Fixed;
  }

  /** Parsing any ID that ends with a printed timestamp gives the instant back in nanoseconds, exactly when
      the year has four digits; for an earlier year the ID has no timestamp suffix. */
  lemma TimestampRoundTrip(prefix: string, t: Instant, fallback: int)
    requires Valid(t)
    ensures ScheduledTimeNanos(prefix + "-" + Rfc3339Nano(t), fallback) ==
            Nanos(if t.year >= 1000 then EpochNanos(t) else fallback)
  {
    var u, p := prefix + "-" + Rfc3339Nano(t), |prefix|;
    BodyIsText(prefix, t);
    hide Matches, Rfc3339Nano, Fields, Fraction, NatText, Body, Search, EpochNanos, Valid, FractionNanos;
    forall k: nat | Matches(u, k) ensures k == p && t.year >= 1000 {
      MatchPlace(prefix, t, k);
      FourDigitYear(t);
    }
    SearchFinds(u, 0, p);
    if t.year >= 1000 {
      PrintedMatches(prefix, t);
      FractionOf(t);
      SplitNanos(t);
    }
  }

  lemma FourDigitYear(t: Instant)
    requires Valid(t) && |NatText(t.year)| == 4
    ensures t.year >= 1000
  {
    YearDigits(t.year);
  }

  lemma FractionOf(t: Instant)
    requires Valid(t)
    ensures var f := Fraction(t.micro); (f == "" || AllDigits(f[1..])) && FractionNanos(f) == t.micro * 1000
  {
    FractionRoundTrip(t.micro);
  }

  lemma SplitNanos(t: Instant)
    ensures EpochNanos(t) == EpochNanos(t.(micro := 0)) + t.micro * 1000
    ensures Valid(t) ==> Valid(t.(micro := 0))
  {
  }

  // ---------------------------------------------------------------------------
  // The trigger identity
  // ---------------------------------------------------------------------------

  /** Printed timestamps determine the instant, in every year. */
  lemma Rfc3339NanoInjective(t: Instant, u: Instant)
    requires Valid(t) && Valid(u) && Rfc3339Nano(t) == Rfc3339Nano(u)
    ensures t == u
  {
    NatTextValue(t.year);
    NatTextValue(u.year);
    AfterYearParts(t);
    AfterYearParts(u);
    var r, s := AfterYear(t), AfterYear(u);
    hide AfterYear, NatText, Fraction, Fixed, Value;
    assert r == ['-'] + r[1..] && s == ['-'] + s[1..];
    assert NatText(t.year) + ['-'] + r[1..] == NatText(t.year) + r;
    assert NatText(u.year) + ['-'] + s[1..] == NatText(u.year) + s;
    SplitAtFirst(NatText(t.year), NatText(u.year), r[1..], s[1..], '-');
    assert r == s;
    TwoDigits(t.month); TwoDigits(u.month);
    TwoDigits(t.day); TwoDigits(u.day);
    TwoDigits(t.hour); TwoDigits(u.hour);
    TwoDigits(t.minute); TwoDigits(u.minute);
    TwoDigits(t.second); TwoDigits(u.second);
    FractionInjective(t.micro, u.micro);
  }

  /** The text that is hashed into a trigger's ID. */
  function TriggerIdentity(endpoint: int, schedule: string, t: Instant): string {
    "servicegen:schedule-trigger:v1\n" + IntText(endpoint) + "\n" + schedule + "\n" + Rfc3339Nano(t)
  }

  lemma NoNewlines(endpoint: int, t: Instant)
    requires Valid(t)
    ensures '\n' !in IntText(endpoint) && '\n' !in Rfc3339Nano(t)
  {
    NatTextValue(if endpoint < 0 then -endpoint else endpoint);
    NatTextValue(t.year);
    NoNewlineAfterYear(t);
    hide AfterYear, NatText;
  }

  lemma NoNewlineAfterYear(t: Instant)
    requires Valid(t)
    ensures '\n' !in AfterYear(t)
  {
    forall i | 0 <= i < |AfterYear(t)| ensures AfterYear(t)[i] != '\n' {
      AfterYearCharacters(t, i);
    }
    hide AfterYear;
  }

  lemma IdentityParts(endpoint: int, schedule: string, t: Instant)
    ensures TriggerIdentity(endpoint, schedule, t) ==
            "servicegen:schedule-trigger:v1\n" + (IntText(endpoint) + ['\n'] + (schedule + ['\n'] + Rfc3339Nano(t)))
  {
    hide IntText, Rfc3339Nano;
  }

  /** The lines of a trigger's identity, unless its schedule ID has lines of its own. */
  lemma IdentityLines(endpoint: int, schedule: string, t: Instant)
    requires Valid(t) && '\n' !in schedule
    ensures SplitOn('\n', TriggerIdentity(endpoint, schedule, t), "") ==
            ["servicegen:schedule-trigger:v1", IntText(endpoint), schedule, Rfc3339Nano(t)]
  {
    IdentityParts(endpoint, schedule, t);
    NoNewlines(endpoint, t);
    hide IntText, Rfc3339Nano, TriggerIdentity, SplitOn;
    var title, e, r := "servicegen:schedule-trigger:v1", IntText(endpoint), Rfc3339Nano(t);
    assert title + ['\n'] == "servicegen:schedule-trigger:v1\n";
    SplitFirst('\n', title, e + ['\n'] + (schedule + ['\n'] + r), "");
    SplitFirst('\n', e, schedule + ['\n'] + r, "");
    SplitFirst('\n', schedule, r, "");
    SplitWhole('\n', r, "");
    assert "" + title == title && "" + e == e && "" + schedule == schedule && "" + r == r;
  }

  lemma SamePrefix(p: string, x: string, y: string)
    requires p + x == p + y
    ensures x == y
  {
    assert (p + x)[|p|..] == x && (p + y)[|p|..] == y;
  }

  /** Two triggers have the same identity exactly when endpoint, schedule ID and instant are the same,
      whatever the schedule ID contains. */
  lemma TriggerIdentityInjective(e1: int, s1: string, t1: Instant, e2: int, s2: string, t2: Instant)
    requires Valid(t1) && Valid(t2)
    ensures TriggerIdentity(e1, s1, t1) == TriggerIdentity(e2, s2, t2)
            <==> e1 == e2 && s1 == s2 && EpochNanos(t1) == EpochNanos(t2)
  {
    hide IntText, Rfc3339Nano, EpochNanos, TriggerIdentity, Valid;
    if TriggerIdentity(e1, s1, t1) == TriggerIdentity(e2, s2, t2) {
      NoNewlines(e1, t1);
      NoNewlines(e2, t2);
      IdentityParts(e1, s1, t1);
      IdentityParts(e2, s2, t2);
      var a, b := s1 + ['\n'] + Rfc3339Nano(t1), s2 + ['\n'] + Rfc3339Nano(t2);
      SamePrefix("servicegen:schedule-trigger:v1\n", IntText(e1) + ['\n'] + a, IntText(e2) + ['\n'] + b);
      SplitAtFirst(IntText(e1), IntText(e2), a, b, '\n');
      SplitAtLast(Rfc3339Nano(t1), Rfc3339Nano(t2), s1, s2, '\n');
      IntTextInjective(e1, e2);
      Rfc3339NanoInjective(t1, t2);
    } else if EpochNanos(t1) == EpochNanos(t2) {
      EpochNanosInjective(t1, t2);
    }
  }
}
