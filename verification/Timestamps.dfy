/** Times as text, in the date-time form of section 5.6 of RFC 3339 with as many fraction digits
    as a nanosecond count needs. */
module Timestamps {
  import opened Arithmetic

  /** A civil time with its zone offset in minutes east of UTC. */
  datatype Time = Time(year: int, month: int, day: int, hour: int, minute: int, second: int, nanos: int, offset: int)

  function DaysIn(year: int, month: int): int {
    if month == 2 then (if year % 4 == 0 && (year % 100 != 0 || year % 400 == 0) then 29 else 28)
    else if month in {4, 6, 9, 11} then 30
    else 31
  }

  const DAY_MINUTES := 1440

  predicate Real(t: Time) {
    && 0 <= t.year < 10000 && 1 <= t.month <= 12 && 1 <= t.day <= DaysIn(t.year, t.month)
    && 0 <= t.hour < 24 && 0 <= t.minute < 60 && 0 <= t.second < 60
    && 0 <= t.nanos < SECOND && -DAY_MINUTES < t.offset < DAY_MINUTES
  }

  const ZERO := Time(1, 1, 1, 0, 0, 0, 0, 0)

  /** A time that can be written: its year has four digits and its offset is less than a day. */
  type Moment = t: Time | Real(t) witness ZERO

  /** The instant of the zero time, in whatever zone it is written. */
  predicate IsZero(t: Moment) {
    if t.offset >= 0 then t == Time(1, 1, 1, t.offset / 60, t.offset % 60, 0, 0, t.offset)
    else t == Time(0, 12, 31, (DAY_MINUTES + t.offset) / 60, (DAY_MINUTES + t.offset) % 60, 0, 0, t.offset)
  }

  /** A field left out when it is the zero instant comes back as the zero time in UTC. */
  function Normal(t: Moment): Moment { if IsZero(t) then ZERO else t }

  /** Days from the first of January of year 1 to the first of January of a year. */
  function YearDays(year: nat): int {
    if year == 0 then -366
    else YearDays(year - 1) + if Leap(year - 1) then 366 else 365
  }

  predicate Leap(year: nat) { year % 4 == 0 && (year % 100 != 0 || year % 400 == 0) }

  function MonthDays(year: nat, month: int): nat
    requires 1 <= month <= 12
    decreases month
  {
    if month == 1 then 0 else MonthDays(year, month - 1) + DaysIn(year, month - 1)
  }

  /** The day of a date, counted from the first of January of year 1. */
  function DayNumber(t: Moment): int { YearDays(t.year) + MonthDays(t.year, t.month) + t.day - 1 }

  /** The nanoseconds from the zero time to a time, on the time line of UTC. */
  function Elapsed(t: Moment): int {
    ((DayNumber(t) * DAY_MINUTES + t.hour * 60 + t.minute - t.offset) * 60 + t.second) * SECOND + t.nanos
  }

  /** The months of a year fill it. */
  lemma MonthsFillYear(year: nat)
    ensures MonthDays(year, 12) + DaysIn(year, 12) == if Leap(year) then 366 else 365
  {
    assert MonthDays(year, 4) == MonthDays(year, 1) + DaysIn(year, 1) + DaysIn(year, 2) + DaysIn(year, 3);
    assert MonthDays(year, 8) == MonthDays(year, 4) + DaysIn(year, 4) + DaysIn(year, 5) + DaysIn(year, 6)
                                 + DaysIn(year, 7);
    assert MonthDays(year, 11) == MonthDays(year, 8) + DaysIn(year, 8) + DaysIn(year, 9) + DaysIn(year, 10);
  }

  lemma {:induction false} YearsGrow(year: nat)
    requires year >= 1
    ensures YearDays(year) >= 365 * (year - 1)
  {
    if year > 1 {
      YearsGrow(year - 1);
    } else {
      assert YearDays(1) == YearDays(0) + 366;
    }
  }

  lemma {:induction false} MonthsGrow(year: nat, month: int, later: int)
    requires 1 <= month < later <= 12
    ensures MonthDays(year, month) + DaysIn(year, month) <= MonthDays(year, later)
    decreases later
  {
    if month < later - 1 { MonthsGrow(year, month, later - 1); }
  }

  /** The first day is the first of January of year 1, and the day before is the last of year 0. */
  lemma FirstDay(t: Moment)
    ensures DayNumber(t) == 0 <==> t.year == 1 && t.month == 1 && t.day == 1
    ensures DayNumber(t) == -1 <==> t.year == 0 && t.month == 12 && t.day == 31
  {
    if t.month > 1 { MonthsGrow(t.year, 1, t.month); }
    if t.year == 0 {
      MonthsFillYear(0);
      if t.month < 12 { MonthsGrow(0, t.month, 12); }
    } else {
      YearsGrow(t.year);
    }
  }

  lemma ZeroClock(minutes: int, second: int, nanos: int)
    requires 0 <= second < 60 && 0 <= nanos < SECOND
    ensures (minutes * 60 + second) * SECOND + nanos == 0 <==> minutes == 0 && second == 0 && nanos == 0
  {}

  lemma ZeroMinutes(day: int, hour: int, minute: int, offset: int)
    requires 0 <= hour < 24 && 0 <= minute < 60 && -DAY_MINUTES < offset < DAY_MINUTES
    ensures day * DAY_MINUTES + hour * 60 + minute - offset == 0 <==>
              if offset >= 0 then day == 0 && hour == offset / 60 && minute == offset % 60
              else day == -1 && hour == (DAY_MINUTES + offset) / 60 && minute == (DAY_MINUTES + offset) % 60
  {}

  lemma ElapsedIs(t: Moment, minutes: int)
    requires minutes == DayNumber(t) * DAY_MINUTES + t.hour * 60 + t.minute - t.offset
    ensures Elapsed(t) == (minutes * 60 + t.second) * SECOND + t.nanos
  {}

  lemma ZeroFields(t: Moment, day: int)
    requires day == 0 <==> t.year == 1 && t.month == 1 && t.day == 1
    requires day == -1 <==> t.year == 0 && t.month == 12 && t.day == 31
    ensures IsZero(t) <==> day * DAY_MINUTES + t.hour * 60 + t.minute - t.offset == 0 && t.second == 0 && t.nanos == 0
  {
    ZeroMinutes(day, t.hour, t.minute, t.offset);
  }

  /** A time is left out as zero exactly when nothing has elapsed: it is midnight, UTC, of the first of
      January of year 1. */
  lemma ZeroIff(t: Moment)
    ensures IsZero(t) <==> Elapsed(t) == 0
  {
    FirstDay(t);
    ZeroFields(t, DayNumber(t));
    var minutes := DayNumber(t) * DAY_MINUTES + t.hour * 60 + t.minute - t.offset;
    ElapsedIs(t, minutes);
    ZeroClock(minutes, t.second, t.nanos);
  }

  /******* Digits *******/

  predicate IsDigit(c: char) { '0' <= c <= '9' }

  predicate AllDigits(s: string) { forall i :: 0 <= i < |s| ==> IsDigit(s[i]) }

  /** A number in exactly `width` decimal digits. */
  function Digits(n: nat, width: nat): (s: string)
    ensures |s| == width && AllDigits(s)
  {
    if width == 0 then "" else Digits(n / 10, width - 1) + [((n % 10) as char + '0')]
  }

  function Number(s: string): nat
    requires AllDigits(s)
  {
    if s == "" then 0 else 10 * Number(s[..|s| - 1]) + ((s[|s| - 1] - '0') as nat)
  }

  lemma {:induction false} NumberOfDigits(n: nat, width: nat)
    requires n < Power(10, width)
    ensures Number(Digits(n, width)) == n
  {
    if width > 0 {
      NumberOfDigits(n / 10, width - 1);
      assert Digits(n, width)[..width - 1] == Digits(n / 10, width - 1);
    }
  }

  /******* Fractions *******/

  function TrimZeros(s: string): (r: string)
    ensures |r| <= |s| && (AllDigits(s) ==> AllDigits(r))
  {
    if s != "" && s[|s| - 1] == '0' then TrimZeros(s[..|s| - 1]) else s
  }

  function Zeros(n: nat): (s: string)
    ensures |s| == n && AllDigits(s)
  {
    if n == 0 then "" else Zeros(n - 1) + "0"
  }

  /** A fraction's digits read as a number of `width` digits: cut, or filled up with zeros. */
  function Scaled(digits: string, width: nat): nat
    requires AllDigits(digits)
  {
    if |digits| >= width then Number(digits[..width]) else Number(digits + Zeros(width - |digits|))
  }

  /** The first nine fraction digits, as nanoseconds. */
  function Nanos(digits: string): nat
    requires AllDigits(digits)
  {
    Scaled(digits, 9)
  }

  lemma {:induction false} TrimmedIsPadded(s: string)
    ensures TrimZeros(s) + Zeros(|s| - |TrimZeros(s)|) == s
  {
    if s != "" && s[|s| - 1] == '0' {
      var init := s[..|s| - 1];
      TrimmedIsPadded(init);
      assert s == init + "0";
    }
  }

  lemma {:induction false} ZerosAreZero(n: nat)
    ensures Number(Zeros(n)) == 0
  {
    if n > 0 {
      ZerosAreZero(n - 1);
      assert Zeros(n)[..n - 1] == Zeros(n - 1);
    }
  }

  function FormatFraction(nanos: nat): string {
    if nanos == 0 then "" else "." + TrimZeros(Digits(nanos, 9))
  }

  function DigitRun(s: string): (n: nat)
    ensures n <= |s| && AllDigits(s[..n]) && (n < |s| ==> !IsDigit(s[n]))
  {
    if s == "" || !IsDigit(s[0]) then 0 else
      assert s[..1 + DigitRun(s[1..])] == [s[0]] + s[1..][..DigitRun(s[1..])];
      1 + DigitRun(s[1..])
  }

  /** The nanoseconds, negative if the point is not followed by a digit, and what comes after. */
  datatype Fraction = Fraction(nanos: int, rest: string)

  function ParseFraction(s: string): Fraction {
    if s == "" || s[0] != '.' then Fraction(0, s)
    else
      var n := DigitRun(s[1..]);
      if n == 0 then Fraction(-1, s) else Fraction(Nanos(s[1..][..n]), s[1..][n..])
  }

  lemma {:induction false} DigitRunOf(digits: string, rest: string)
    requires AllDigits(digits) && (rest != "" ==> !IsDigit(rest[0]))
    ensures DigitRun(digits + rest) == |digits|
  {
    if digits == "" {
      assert digits + rest == rest;
    } else {
      DigitRunOf(digits[1..], rest);
      assert (digits + rest)[1..] == digits[1..] + rest;
    }
  }

  lemma ZeroTrimsAway(digits: string)
    requires AllDigits(digits) && TrimZeros(digits) == ""
    ensures Number(digits) == 0
  {
    TrimmedIsPadded(digits);
    ZerosAreZero(|digits|);
    assert "" + Zeros(|digits|) == Zeros(|digits|);
  }

  /** Digits cut after their last nonzero one and filled up again are the same number. */
  lemma TrimmedDigits(n: nat, width: nat)
    requires 0 < n < Power(10, width)
    ensures var digits := TrimZeros(Digits(n, width)); digits != "" && Scaled(digits, width) == n
  {
    var all := Digits(n, width);
    assert Number(all) == n by { NumberOfDigits(n, width); }
    assert TrimZeros(all) != "" by { if TrimZeros(all) == "" { ZeroTrimsAway(all); } }
    TrimmedIsPadded(all);
    assert all[..width] == all;
  }

  lemma NinePower()
    ensures Power(10, 9) == SECOND
  {
    assert Power(10, 4) == 10000;
    assert Power(10, 8) == 100000000;
  }

  lemma TrimmedNanos(nanos: nat)
    requires 0 < nanos < SECOND
    ensures TrimZeros(Digits(nanos, 9)) != "" && Nanos(TrimZeros(Digits(nanos, 9))) == nanos
  {
    NinePower();
    TrimmedDigits(nanos, 9);
  }

  lemma FractionRoundTrip(nanos: nat, rest: string)
    requires nanos < SECOND && rest != "" && rest[0] != '.' && !IsDigit(rest[0])
    ensures ParseFraction(FormatFraction(nanos) + rest) == Fraction(nanos, rest)
  {
    if nanos == 0 {
      assert FormatFraction(nanos) + rest == rest;
    } else {
      TrimmedNanos(nanos);
      var digits := TrimZeros(Digits(nanos, 9));
      assert (FormatFraction(nanos) + rest)[1..] == digits + rest;
      DigitRunOf(digits, rest);
      assert (digits + rest)[..|digits|] == digits && (digits + rest)[|digits|..] == rest;
    }
  }

  /******* Zones *******/

  function FormatZone(offset: int): string
    requires -DAY_MINUTES < offset < DAY_MINUTES
  {
    if offset == 0 then "Z"
    else if offset > 0 then "+" + Digits(offset / 60, 2) + ":" + Digits(offset % 60, 2)
    else "-" + Digits(-offset / 60, 2) + ":" + Digits(-offset % 60, 2)
  }

  predicate TwoDigits(s: string, i: nat) { i + 2 <= |s| && AllDigits(s[i..i + 2]) }

  function Two(s: string, i: nat): nat
    requires TwoDigits(s, i)
  {
    Number(s[i..i + 2])
  }

  /** The offset, or a day if the text is not a zone. */
  function ParseZone(s: string): int {
    if s == "Z" then 0
    else if |s| == 6 && s[0] in {'+', '-'} && TwoDigits(s, 1) && s[3] == ':' && TwoDigits(s, 4)
            && Two(s, 1) < 24 && Two(s, 4) < 60 then
      var minutes := 60 * Two(s, 1) + Two(s, 4);
      if s[0] == '+' then minutes else -minutes
    else DAY_MINUTES
  }

  lemma ZoneParts(sign: char, hour: string, minute: string)
    requires |hour| == |minute| == 2 && AllDigits(hour) && AllDigits(minute)
    ensures var s := [sign] + hour + ":" + minute;
            |s| == 6 && s[0] == sign && TwoDigits(s, 1) && s[3] == ':' && TwoDigits(s, 4) && s[1..3] == hour
            && s[4..6] == minute
  {
    var s := [sign] + hour + ":" + minute;
    assert s[1..3] == hour && s[4..6] == minute;
  }

  lemma ZoneRoundTrip(offset: int)
    requires -DAY_MINUTES < offset < DAY_MINUTES
    ensures ParseZone(FormatZone(offset)) == offset
    ensures FormatZone(offset) != "" && FormatZone(offset)[0] != '.' && !IsDigit(FormatZone(offset)[0])
  {
    if offset != 0 {
      var size := if offset > 0 then offset else -offset;
      var hour, minute := Digits(size / 60, 2), Digits(size % 60, 2);
      assert Number(hour) == size / 60 && Number(minute) == size % 60 by {
        assert Power(10, 2) == 100;
        NumberOfDigits(size / 60, 2);
        NumberOfDigits(size % 60, 2);
      }
      ZoneParts(if offset > 0 then '+' else '-', hour, minute);
    }
  }

  /******* The whole text *******/

  function FormatDate(t: Moment): string {
    Digits(t.year, 4) + "-" + Digits(t.month, 2) + "-" + Digits(t.day, 2) + "T"
  }

  function FormatClock(t: Moment): string {
    Digits(t.hour, 2) + ":" + Digits(t.minute, 2) + ":" + Digits(t.second, 2)
  }

  function Format(t: Moment): string {
    FormatDate(t) + FormatClock(t) + (FormatFraction(t.nanos) + FormatZone(t.offset))
  }

  datatype Parsed = Parsed(time: Moment) | Malformed

  predicate DateShape(s: string) {
    |s| == 11 && AllDigits(s[..4]) && s[4] == '-' && TwoDigits(s, 5) && s[7] == '-' && TwoDigits(s, 8) && s[10] == 'T'
  }

  predicate ClockShape(s: string) {
    |s| == 8 && TwoDigits(s, 0) && s[2] == ':' && TwoDigits(s, 3) && s[5] == ':' && TwoDigits(s, 6)
  }

  function Parse(s: string): Parsed {
    if |s| < 20 || !DateShape(s[..11]) || !ClockShape(s[11..19]) then Malformed
    else
      var date, clock := s[..11], s[11..19];
      var fraction := ParseFraction(s[19..]);
      var t := Time(Number(date[..4]), Two(date, 5), Two(date, 8), Two(clock, 0), Two(clock, 3), Two(clock, 6),
                    fraction.nanos, ParseZone(fraction.rest));
      if Real(t) then Parsed(t) else Malformed
  }

  lemma DateParts(year: string, month: string, day: string)
    requires |year| == 4 && |month| == |day| == 2 && AllDigits(year) && AllDigits(month) && AllDigits(day)
    ensures var s := year + "-" + month + "-" + day + "T";
            DateShape(s) && s[..4] == year && s[5..7] == month && s[8..10] == day
  {
    var s := year + "-" + month + "-" + day + "T";
    assert s[..4] == year && s[5..7] == month && s[8..10] == day;
  }

  lemma ClockParts(hour: string, minute: string, second: string)
    requires |hour| == |minute| == |second| == 2 && AllDigits(hour) && AllDigits(minute) && AllDigits(second)
    ensures var s := hour + ":" + minute + ":" + second;
            ClockShape(s) && s[0..2] == hour && s[3..5] == minute && s[6..8] == second
  {
    var s := hour + ":" + minute + ":" + second;
    assert s[0..2] == hour && s[3..5] == minute && s[6..8] == second;
  }

  lemma DateRoundTrip(t: Moment)
    ensures var s := FormatDate(t);
            DateShape(s) && Number(s[..4]) == t.year && Two(s, 5) == t.month && Two(s, 8) == t.day
  {
    DateParts(Digits(t.year, 4), Digits(t.month, 2), Digits(t.day, 2));
    assert Power(10, 2) == 100 && Power(10, 4) == 10000;
    NumberOfDigits(t.year, 4);
    NumberOfDigits(t.month, 2);
    NumberOfDigits(t.day, 2);
  }

  lemma ClockRoundTrip(t: Moment)
    ensures var s := FormatClock(t);
            ClockShape(s) && Two(s, 0) == t.hour && Two(s, 3) == t.minute && Two(s, 6) == t.second
  {
    ClockParts(Digits(t.hour, 2), Digits(t.minute, 2), Digits(t.second, 2));
    assert Power(10, 2) == 100;
    NumberOfDigits(t.hour, 2);
    NumberOfDigits(t.minute, 2);
    NumberOfDigits(t.second, 2);
  }

  lemma TwoPlaces(n: nat)
    requires n < 100
    ensures Digits(n, 2) == [(n / 10) as char + '0', (n % 10) as char + '0']
  {
    assert Digits(n / 10, 1) == Digits(n / 10 / 10, 0) + [(n / 10) as char + '0'];
  }

  lemma PlacePush(n: nat, width: nat, d: nat)
    requires d < 10
    ensures Digits(n * 10 + d, width + 1) == Digits(n, width) + [d as char + '0']
  {
    assert (n * 10 + d) / 10 == n && (n * 10 + d) % 10 == d;
  }

  lemma {:induction false} ZerosPush(n: nat, width: nat, k: nat)
    ensures Digits(n * Power(10, k), width + k) == Digits(n, width) + Zeros(k)
  {
    if k == 0 {
      assert Digits(n, width) + "" == Digits(n, width);
    } else {
      ZerosPush(n, width, k - 1);
      var m := n * Power(10, k - 1);
      assert n * Power(10, k) == m * 10 + 0;
      PlacePush(m, width + k - 1, 0);
      assert Digits(n, width) + Zeros(k - 1) + "0" == Digits(n, width) + (Zeros(k - 1) + "0");
    }
  }

  lemma Joined(date: string, clock: string, fraction: string, zone: string)
    requires date == "2026-05-09T" && clock == "07:08:06" && fraction == ".12" && zone == "+01:30"
    ensures date + clock + (fraction + zone) == "2026-05-09T07:08:06.12+01:30"
  {}

  /** A written time, place by place. */
  lemma FormatExample()
    ensures Format(Time(2026, 5, 9, 7, 8, 6, 120_000_000, 90)) == "2026-05-09T07:08:06.12+01:30"
  {
    var t := Time(2026, 5, 9, 7, 8, 6, 120_000_000, 90);
    ExampleDate(t);
    ExampleClock(t);
    ExampleFraction();
    ExampleZone(t.offset);
    Joined(FormatDate(t), FormatClock(t), FormatFraction(t.nanos), FormatZone(t.offset));
  }

  lemma ExampleDate(t: Moment)
    requires t.year == 2026 && t.month == 5 && t.day == 9
    ensures FormatDate(t) == "2026-05-09T"
  {
    ExampleYear();
    assert Digits(5, 2) == "05" by { TwoPlaces(5); }
    assert Digits(9, 2) == "09" by { TwoPlaces(9); }
    JoinedDate(Digits(2026, 4), Digits(5, 2), Digits(9, 2));
  }

  lemma ExampleYear()
    ensures Digits(2026, 4) == "2026"
  {
    TwoPlaces(20);
    PlacePush(20, 2, 2);
    PlacePush(202, 3, 6);
  }

  lemma JoinedDate(year: string, month: string, day: string)
    requires year == "2026" && month == "05" && day == "09"
    ensures year + "-" + month + "-" + day + "T" == "2026-05-09T"
  {}

  lemma ExampleClock(t: Moment)
    requires t.hour == 7 && t.minute == 8 && t.second == 6
    ensures FormatClock(t) == "07:08:06"
  {
    TwoPlaces(7);
    TwoPlaces(8);
    TwoPlaces(6);
  }

  lemma ExampleZone(offset: int)
    requires offset == 90
    ensures FormatZone(offset) == "+01:30"
  {
    var hour, minute := offset / 60, offset % 60;
    TwoPlaces(hour);
    TwoPlaces(minute);
    JoinedZone(Digits(hour, 2), Digits(minute, 2));
  }

  lemma JoinedZone(hour: string, minute: string)
    requires hour == "01" && minute == "30"
    ensures "+" + hour + ":" + minute == "+01:30"
  {}

  lemma {:induction false} TrimTail(s: string, n: nat)
    requires s != "" && s[|s| - 1] != '0'
    ensures TrimZeros(s + Zeros(n)) == s
  {
    if n == 0 {
      assert s + "" == s;
    } else {
      var padded, shorter := s + Zeros(n), s + Zeros(n - 1);
      assert padded == shorter + "0";
      assert padded[|padded| - 1] == '0' && padded[..|padded| - 1] == shorter;
      TrimTail(s, n - 1);
    }
  }

  lemma ExampleFraction()
    ensures FormatFraction(120_000_000) == ".12"
  {
    assert Power(10, 3) == 1000;
    assert Power(10, 5) == 100000;
    assert Power(10, 7) == 10000000;
    ZerosPush(12, 2, 7);
    TwoPlaces(12);
    TrimTail("12", 7);
  }

  /** Every writable time is read back as itself: date, clock, all nine fraction digits, zone. */
  lemma TimeRoundTrip(t: Moment)
    ensures Parse(Format(t)) == Parsed(t)
  {
    var s := Format(t);
    DateRoundTrip(t);
    ClockRoundTrip(t);
    ZoneRoundTrip(t.offset);
    FractionRoundTrip(t.nanos, FormatZone(t.offset));
    assert s[..11] == FormatDate(t) && s[11..19] == FormatClock(t);
    assert s[19..] == FormatFraction(t.nanos) + FormatZone(t.offset);
  }
}
