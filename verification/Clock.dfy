/** UTC datetimes with microseconds, as Python's `datetime` and `timestamptz` hold them. */
module Clock {

  datatype DateTime = DateTime(
    year: nat, month: nat, day: nat, hour: nat, minute: nat, second: nat, micro: nat)

  predicate IsLeap(year: nat) {
    year % 4 == 0 && (year % 100 != 0 || year % 400 == 0)
  }

  function DaysInMonth(year: nat, month: nat): (days: nat)
    ensures days <= 31
  {
    if month == 2 then (if IsLeap(year) then 29 else 28)
    else if month in {4, 6, 9, 11} then 30
    else 31
  }

  function DaysInYear(year: nat, upTo: nat): nat
    requires upTo <= 12
  {
    if upTo == 0 then 0 else DaysInYear(year, upTo - 1) + DaysInMonth(year, upTo)
  }

  lemma TwoMonths(year: nat, month: nat)
    requires month <= 10
    ensures DaysInYear(year, month + 2) == DaysInYear(year, month) + DaysInMonth(year, month + 1) + DaysInMonth(year, month + 2)
  {
    hide IsLeap, DaysInMonth;
  }

  lemma NoMonths(year: nat)
    ensures DaysInYear(year, 0) == 0
  {
  }

  /** The Gregorian calendar: a leap year every fourth year, but of the centuries only every fourth. */
  lemma YearsAreGregorian(year: nat)
    ensures DaysInYear(year, 12) == if year % 400 == 0 then 366 else if year % 100 == 0 then 365 else if year % 4 == 0 then 366 else 365
    ensures DaysInYear(year, 12) == DaysInYear(year, 6) + 184
  {
    hide DaysInYear;
    NoMonths(year);
    TwoMonths(year, 0);
    TwoMonths(year, 2);
    TwoMonths(year, 4);
    TwoMonths(year, 6);
    TwoMonths(year, 8);
    TwoMonths(year, 10);
  }

  predicate ValidDateTime(t: DateTime) {
    && 1 <= t.year <= 9999
    && 1 <= t.month <= 12
    && 1 <= t.day <= DaysInMonth(t.year, t.month)
    && t.hour < 24
    && t.minute < 60
    && t.second < 60
    && t.micro < 1_000_000
  }

  type Timestamp = t: DateTime | ValidDateTime(t) witness DateTime(1970, 1, 1, 0, 0, 0, 0)

  /** A number that orders timestamps the way the calendar does. */
  function Ordinal(t: Timestamp): nat {
    (((((t.year * 13 + t.month) * 32 + t.day) * 24 + t.hour) * 60 + t.minute) * 60 + t.second) * 1_000_000 + t.micro
  }

  lemma MixedRadix(base: nat, a: nat, x: nat, b: nat, y: nat)
    requires 0 < base && x < base && y < base
    requires a * base + x == b * base + y
    ensures a == b && x == y
  {
    assert a < b ==> (a + 1) * base <= b * base;
    assert b < a ==> (b + 1) * base <= a * base;
  }

  /** Distinct timestamps never compare equal. */
  lemma OrdinalIsInjective(s: Timestamp, t: Timestamp)
    requires Ordinal(s) == Ordinal(t)
    ensures s == t
  {
    var s1, t1 := s.year * 13 + s.month, t.year * 13 + t.month;
    var s2, t2 := s1 * 32 + s.day, t1 * 32 + t.day;
    var s3, t3 := s2 * 24 + s.hour, t2 * 24 + t.hour;
    var s4, t4 := s3 * 60 + s.minute, t3 * 60 + t.minute;
    var s5, t5 := s4 * 60 + s.second, t4 * 60 + t.second;
    MixedRadix(1_000_000, s5, s.micro, t5, t.micro);
    MixedRadix(60, s4, s.second, t4, t.second);
    MixedRadix(60, s3, s.minute, t3, t.minute);
    MixedRadix(24, s2, s.hour, t2, t.hour);
    MixedRadix(32, s1, s.day, t1, t.day);
    MixedRadix(13, s.year, s.month, t.year, t.month);
  }

  /** Earlier on the calendar and the clock: the first field that differs decides. */
  predicate Before(s: DateTime, t: DateTime) {
    || s.year < t.year
    || (s.year == t.year && (s.month < t.month
    || (s.month == t.month && (s.day < t.day
    || (s.day == t.day && (s.hour < t.hour
    || (s.hour == t.hour && (s.minute < t.minute
    || (s.minute == t.minute && (s.second < t.second
    || (s.second == t.second && s.micro < t.micro)))))))))))
  }

  lemma MixedRadixOrder(base: nat, a: nat, x: nat, b: nat, y: nat)
    requires 0 < base && x < base && y < base
    ensures a * base + x < b * base + y <==> a < b || (a == b && x < y)
  {
    assert a < b ==> (a + 1) * base <= b * base;
    assert b < a ==> (b + 1) * base <= a * base;
  }

  function DayNumber(t: Timestamp): nat {
    (t.year * 13 + t.month) * 32 + t.day
  }

  lemma DaysInOrder(s: Timestamp, t: Timestamp)
    ensures DayNumber(s) < DayNumber(t) <==>
              s.year < t.year || (s.year == t.year && (s.month < t.month || (s.month == t.month && s.day < t.day)))
    ensures DayNumber(s) == DayNumber(t) ==> s.year == t.year && s.month == t.month && s.day == t.day
  {
    var s1, t1 := s.year * 13 + s.month, t.year * 13 + t.month;
    MixedRadixOrder(13, s.year, s.month, t.year, t.month);
    MixedRadixOrder(32, s1, s.day, t1, t.day);
    if DayNumber(s) == DayNumber(t) {
      MixedRadix(32, s1, s.day, t1, t.day);
      MixedRadix(13, s.year, s.month, t.year, t.month);
    }
  }

  function SecondNumber(t: Timestamp): nat {
    ((DayNumber(t) * 24 + t.hour) * 60 + t.minute) * 60 + t.second
  }

  lemma SecondsInOrder(s: Timestamp, t: Timestamp)
    ensures SecondNumber(s) < SecondNumber(t) <==>
              DayNumber(s) < DayNumber(t) || (DayNumber(s) == DayNumber(t)
              && (s.hour < t.hour || (s.hour == t.hour && (s.minute < t.minute || (s.minute == t.minute && s.second < t.second)))))
    ensures SecondNumber(s) == SecondNumber(t) ==>
              DayNumber(s) == DayNumber(t) && s.hour == t.hour && s.minute == t.minute && s.second == t.second
  {
    hide DayNumber;
    var s3, t3 := DayNumber(s) * 24 + s.hour, DayNumber(t) * 24 + t.hour;
    var s4, t4 := s3 * 60 + s.minute, t3 * 60 + t.minute;
    MixedRadixOrder(24, DayNumber(s), s.hour, DayNumber(t), t.hour);
    MixedRadixOrder(60, s3, s.minute, t3, t.minute);
    MixedRadixOrder(60, s4, s.second, t4, t.second);
    if SecondNumber(s) == SecondNumber(t) {
      MixedRadix(60, s4, s.second, t4, t.second);
      MixedRadix(60, s3, s.minute, t3, t.minute);
      MixedRadix(24, DayNumber(s), s.hour, DayNumber(t), t.hour);
    }
  }

  /** Timestamps compare as the calendar does. */
  lemma OrdinalIsChronological(s: Timestamp, t: Timestamp)
    ensures Ordinal(s) < Ordinal(t) <==> Before(s, t)
    ensures Ordinal(s) == Ordinal(t) <==> s == t
  {
    assert Ordinal(s) == SecondNumber(s) * 1_000_000 + s.micro && Ordinal(t) == SecondNumber(t) * 1_000_000 + t.micro;
    hide DayNumber, SecondNumber, Ordinal;
    DaysInOrder(s, t);
    SecondsInOrder(s, t);
    SecondsInOrder(t, s);
    DaysInOrder(t, s);
    MixedRadixOrder(1_000_000, SecondNumber(s), s.micro, SecondNumber(t), t.micro);
    if Ordinal(s) == Ordinal(t) {
      OrdinalIsInjective(s, t);
    }
  }
}
