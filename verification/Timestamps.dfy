/** UTC timestamps in the 20-character form YYYY-MM-DDThh:mm:ssZ, and their chronological meaning. */
module Timestamps {
  import opened Lexicographic

  /** The shape test of the alarm store: separators in place, at least 20 characters. */
  predicate ValidShape(s: string) {
    |s| >= 20 && s[4] == '-' && s[7] == '-' && s[10] == 'T' && s[13] == ':' && s[16] == ':' && s[19] == 'Z'
  }

  predicate AllDigits(s: string) {
    forall i :: 0 <= i < |s| ==> '0' <= s[i] <= '9'
  }

  function Digit(c: char): nat
    requires '0' <= c <= '9'
  {
    (c as int) - ('0' as int)
  }

  function Number(s: string): nat
    requires AllDigits(s)
  {
    if s == [] then 0 else 10 * Number(s[..|s| - 1]) + Digit(s[|s| - 1])
  }

  predicate LeapYear(y: nat) {
    y % 4 == 0 && (y % 100 != 0 || y % 400 == 0)
  }

  function DaysInMonth(y: nat, m: nat): nat {
    if m == 2 then (if LeapYear(y) then 29 else 28)
    else if m in {4, 6, 9, 11} then 30
    else 31
  }

  function DaysBeforeMonth(y: nat, m: nat): nat {
    if m <= 1 then 0 else DaysBeforeMonth(y, m - 1) + DaysInMonth(y, m - 1)
  }

  function DaysBeforeYear(y: nat): nat {
    if y == 0 then 0 else DaysBeforeYear(y - 1) + DaysBeforeMonth(y - 1, 13)
  }

  /** Seconds since the start of year 0. */
  function Seconds(y: nat, mo: nat, d: nat, h: nat, mi: nat, s: nat): int {
    (((DaysBeforeYear(y) + DaysBeforeMonth(y, mo) + d - 1) * 24 + h) * 60 + mi) * 60 + s
  }

  function Year(s: string): string requires |s| == 20 { s[..4] }
  function Month(s: string): string requires |s| == 20 { s[5..7] }
  function Day(s: string): string requires |s| == 20 { s[8..10] }
  function Hour(s: string): string requires |s| == 20 { s[11..13] }
  function Minute(s: string): string requires |s| == 20 { s[14..16] }
  function Second(s: string): string requires |s| == 20 { s[17..19] }

  /** A 20-character timestamp that names a real date and time of day (no leap second). */
  predicate WellFormed(s: string) {
    && |s| == 20 && ValidShape(s)
    && AllDigits(Year(s)) && AllDigits(Month(s)) && AllDigits(Day(s))
    && AllDigits(Hour(s)) && AllDigits(Minute(s)) && AllDigits(Second(s))
    && 1 <= Number(Month(s)) <= 12
    && 1 <= Number(Day(s)) <= DaysInMonth(Number(Year(s)), Number(Month(s)))
    && Number(Hour(s)) < 24 && Number(Minute(s)) < 60 && Number(Second(s)) < 60
  }

  /** The instant a timestamp names. */
  function Instant(s: string): int
    requires WellFormed(s)
  {
    Seconds(Number(Year(s)), Number(Month(s)), Number(Day(s)), Number(Hour(s)), Number(Minute(s)), Number(Second(s)))
  }

  lemma DigitOrder(x: string, y: string)
    requires |x| == |y| == 1 && AllDigits(x) && AllDigits(y)
    ensures Less(x, y) <==> Digit(x[0]) < Digit(y[0])
    ensures x == y <==> Digit(x[0]) == Digit(y[0])
  {
    assert x[1..] == [] && y[1..] == [];
    assert x == [x[0]] && y == [y[0]];
  }

  lemma SplitLast(s: string)
    requires s != []
    ensures s == s[..|s| - 1] + s[|s| - 1..]
  {
  }

  lemma {:induction false} NumberOrder(a: string, b: string)
    requires |a| == |b| && AllDigits(a) && AllDigits(b)
    ensures Less(a, b) <==> Number(a) < Number(b)
    ensures a == b <==> Number(a) == Number(b)
    decreases |a|
  {
    if a != [] {
      var p, q := a[..|a| - 1], b[..|b| - 1];
      var x, y := a[|a| - 1..], b[|b| - 1..];
      NumberOrder(p, q);
      SplitLast(a);
      SplitLast(b);
      LessOfConcat(p, q, x, y);
      DigitOrder(x, y);
    }
  }

  lemma {:induction false} MonthsAccumulate(y: nat, m: nat, n: nat)
    requires 1 <= m < n
    ensures DaysBeforeMonth(y, m) + DaysInMonth(y, m) <= DaysBeforeMonth(y, n)
    decreases n
  {
    if m + 1 < n {
      MonthsAccumulate(y, m, n - 1);
    }
  }

  lemma {:induction false} YearsAccumulate(y: nat, z: nat)
    requires y < z
    ensures DaysBeforeYear(y) + DaysBeforeMonth(y, 13) <= DaysBeforeYear(z)
    decreases z
  {
    if y + 1 < z {
      YearsAccumulate(y, z - 1);
    }
  }

  /** Earlier calendar days have smaller day numbers. */
  lemma DayOrder(y: nat, mo: nat, d: nat, y': nat, mo': nat, d': nat)
    requires 1 <= mo <= 12 && 1 <= d <= DaysInMonth(y, mo)
    requires 1 <= mo' <= 12 && 1 <= d' <= DaysInMonth(y', mo')
    requires y < y' || (y == y' && (mo < mo' || (mo == mo' && d < d')))
    ensures DaysBeforeYear(y) + DaysBeforeMonth(y, mo) + d < DaysBeforeYear(y') + DaysBeforeMonth(y', mo') + d'
  {
    if y < y' {
      YearsAccumulate(y, y');
      MonthsAccumulate(y, mo, 13);
    } else if mo < mo' {
      MonthsAccumulate(y, mo, mo');
    }
  }

  ghost predicate TimeBefore(a: string, b: string)
    requires |a| == |b| == 20
  {
    || Less(Hour(a), Hour(b))
    || (Hour(a) == Hour(b) && (|| Less(Minute(a), Minute(b))
    || (Minute(a) == Minute(b) && Less(Second(a), Second(b)))))
  }

  /** Two timestamps compare as strings field by field. */
  ghost predicate FieldsBefore(a: string, b: string)
    requires |a| == |b| == 20
  {
    || Less(Year(a), Year(b))
    || (Year(a) == Year(b) && (|| Less(Month(a), Month(b))
    || (Month(a) == Month(b) && (|| Less(Day(a), Day(b))
    || (Day(a) == Day(b) && TimeBefore(a, b))))))
  }

  lemma Peel(a: string, b: string, from: nat, to: nat)
    requires |a| == |b| == 20 && from < to < 20 && a[to] == b[to]
    ensures Less(a[from..], b[from..]) <==>
            Less(a[from..to], b[from..to]) || (a[from..to] == b[from..to] && Less(a[to + 1..], b[to + 1..]))
  {
    assert a[from..] == a[from..to] + a[to..] && b[from..] == b[from..to] + b[to..];
    assert a[to..][1..] == a[to + 1..] && b[to..][1..] == b[to + 1..];
    LessOfConcat(a[from..to], b[from..to], a[to..], b[to..]);
  }

  lemma TailIsTimeBefore(a: string, b: string)
    requires |a| == |b| == 20 && ValidShape(a) && ValidShape(b)
    ensures Less(a[11..], b[11..]) <==> TimeBefore(a, b)
  {
    assert a[20..] == [] && b[20..] == [];
    Peel(a, b, 11, 13);
    Peel(a, b, 14, 16);
    Peel(a, b, 17, 19);
  }

  lemma LessIsFieldsBefore(a: string, b: string)
    requires |a| == |b| == 20 && ValidShape(a) && ValidShape(b)
    ensures Less(a, b) <==> FieldsBefore(a, b)
  {
    assert a[0..] == a && b[0..] == b && a[..4] == a[0..4] && b[..4] == b[0..4];
    Peel(a, b, 0, 4);
    Peel(a, b, 5, 7);
    Peel(a, b, 8, 10);
    TailIsTimeBefore(a, b);
  }

  lemma FieldsBeforeIsEarlier(a: string, b: string)
    requires WellFormed(a) && WellFormed(b) && FieldsBefore(a, b)
    ensures Instant(a) < Instant(b)
  {
    NumberOrder(Year(a), Year(b));
    NumberOrder(Month(a), Month(b));
    NumberOrder(Day(a), Day(b));
    NumberOrder(Hour(a), Hour(b));
    NumberOrder(Minute(a), Minute(b));
    NumberOrder(Second(a), Second(b));
    if !(Year(a) == Year(b) && Month(a) == Month(b) && Day(a) == Day(b)) {
      DayOrder(Number(Year(a)), Number(Month(a)), Number(Day(a)), Number(Year(b)), Number(Month(b)), Number(Day(b)));
    }
  }

  /** String order is chronological order (section 5.1 of RFC 3339). */
  lemma StringOrderIsChronological(a: string, b: string)
    requires WellFormed(a) && WellFormed(b)
    ensures Less(a, b) <==> Instant(a) < Instant(b)
    ensures a == b <==> Instant(a) == Instant(b)
  {
    LessIsFieldsBefore(a, b);
    LessIsFieldsBefore(b, a);
    Trichotomy(a, b);
    if Less(a, b) {
      FieldsBeforeIsEarlier(a, b);
    } else if Less(b, a) {
      FieldsBeforeIsEarlier(b, a);
    }
  }

  /** Inclusive lexicographic range test; an empty bound is open. */
  predicate InRange(value: string, start: string, end: string) {
    (start != "" ==> Leq(start, value)) && (end != "" ==> Leq(value, end))
  }

  /** On well-formed timestamps the test selects exactly the closed time interval. */
  lemma InRangeIsInterval(value: string, start: string, end: string)
    requires WellFormed(value)
    requires start != "" ==> WellFormed(start)
    requires end != "" ==> WellFormed(end)
    ensures InRange(value, start, end) <==>
            (start != "" ==> Instant(start) <= Instant(value)) && (end != "" ==> Instant(value) <= Instant(end))
  {
    if start != "" {
      StringOrderIsChronological(value, start);
    }
    if end != "" {
      StringOrderIsChronological(end, value);
    }
  }
}
