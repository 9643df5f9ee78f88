/**
  Millisecond timestamps as ISO-8601 UTC text (ms_to_iso in core/src/hash_chain.cpp), from 1970 on.
  The calendar is the Gregorian one gmtime_r uses.
 */
module Timestamp {
  import opened Decimal

  predicate Leap(y: nat) {
    y % 4 == 0 && (y % 100 != 0 || y % 400 == 0)
  }

  function YearDays(y: nat): nat {
    if Leap(y) then 366 else 365
  }

  function MonthDays(y: nat, m: nat): nat {
    if m == 1 then (if Leap(y) then 29 else 28)
    else if m == 3 || m == 5 || m == 8 || m == 10 then 30
    else 31
  }

  /** Month and day count from zero. */
  datatype Date = Date(year: nat, month: nat, day: nat)

  function InYear(y: nat, m: nat, d: nat): Date
    requires m < 12
    decreases 12 - m
  {
    if m == 11 || d < MonthDays(y, m) then Date(y, m, d) else InYear(y, m + 1, d - MonthDays(y, m))
  }

  /** The date d days after the first day of year y. */
  function Civil(y: nat, d: nat): Date
    decreases d
  {
    if d < YearDays(y) then InYear(y, 0, d) else Civil(y + 1, d - YearDays(y))
  }

  // ---- the way back: count the days before a date ----

  function YearStart(y: nat): nat {
    if y <= 1970 then 0 else YearStart(y - 1) + YearDays(y - 1)
  }

  function MonthStart(y: nat, m: nat): nat {
    if m == 0 then 0 else MonthStart(y, m - 1) + MonthDays(y, m - 1)
  }

  function DayNumber(d: Date): nat {
    YearStart(d.year) + MonthStart(d.year, d.month) + d.day
  }

  /** Leap years before the year: every fourth, but of the hundreds only every fourth. */
  function LeapsBefore(y: nat): nat
    requires y >= 1
  {
    (y - 1) / 4 - (y - 1) / 100 + (y - 1) / 400
  }

  /** The first of January, counted from that of 1970, by the Gregorian rule. */
  lemma {:induction false} YearStartExact(y: nat)
    requires y >= 1970
    ensures YearStart(y) == 365 * (y - 1970) + LeapsBefore(y) - 477
  {
    if y > 1970 {
      YearStartExact(y - 1);
      OneMoreLeap(y - 1);
    }
  }

  lemma OneMoreLeap(y: nat)
    requires y >= 1
    ensures LeapsBefore(y + 1) == LeapsBefore(y) + if Leap(y) then 1 else 0
  {
    assert y / 4 == (y - 1) / 4 + if y % 4 == 0 then 1 else 0;
    assert y / 100 == (y - 1) / 100 + if y % 100 == 0 then 1 else 0;
    assert y / 400 == (y - 1) / 400 + if y % 400 == 0 then 1 else 0;
    Multiples(y);
  }

  lemma Multiples(y: nat)
    ensures y % 400 == 0 ==> y % 100 == 0
    ensures y % 100 == 0 ==> y % 4 == 0
  {
    if y % 400 == 0 { Hundreds(4 * (y / 400)); }
    if y % 100 == 0 { Fours(25 * (y / 100)); }
  }

  lemma Hundreds(q: nat)
    ensures (100 * q) % 100 == 0
  {
  }

  lemma Fours(q: nat)
    ensures (4 * q) % 4 == 0
  {
  }

  const MONTH_STARTS: seq<nat> := [0, 31, 59, 90, 120, 151, 181, 212, 243, 273, 304, 334]

  /** The first of each month, counted from that of January. */
  lemma MonthStartExact(y: nat, m: nat)
    requires m < 12
    ensures MonthStart(y, m) == MONTH_STARTS[m] + if m >= 2 && Leap(y) then 1 else 0
  {
    assert MonthStart(y, 1) == 31;
    assert MonthStart(y, 2) == 31 + MonthDays(y, 1);
    assert MonthStart(y, 4) == MonthStart(y, 2) + 31 + 30;
    assert MonthStart(y, 6) == MonthStart(y, 4) + 31 + 30;
    assert MonthStart(y, 8) == MonthStart(y, 6) + 31 + 31;
    assert MonthStart(y, 10) == MonthStart(y, 8) + 30 + 31;
  }

  predicate RealDate(d: Date) {
    d.year >= 1970 && d.month < 12 && d.day < MonthDays(d.year, d.month)
  }

  lemma YearIsMonths(y: nat)
    ensures MonthStart(y, 11) + 31 == YearDays(y)
  {
    assert MonthStart(y, 1) == 31;
    assert MonthStart(y, 2) == 31 + MonthDays(y, 1);
    assert MonthStart(y, 4) == MonthStart(y, 2) + 31 + 30;
    assert MonthStart(y, 6) == MonthStart(y, 4) + 31 + 30;
    assert MonthStart(y, 8) == MonthStart(y, 6) + 31 + 31;
    assert MonthStart(y, 10) == MonthStart(y, 8) + 30 + 31;
  }

  lemma {:induction false} InYearUndo(y: nat, m: nat, d: nat)
    requires m < 12 && y >= 1970 && MonthStart(y, m) + d < YearDays(y)
    ensures var r := InYear(y, m, d); RealDate(r) && r.year == y && MonthStart(y, r.month) + r.day == MonthStart(y, m) + d
    decreases 12 - m
  {
    if m == 11 {
      YearIsMonths(y);
    } else if d >= MonthDays(y, m) {
      InYearUndo(y, m + 1, d - MonthDays(y, m));
    }
  }

  /** Counting the days before the date undoes the calendar. */
  lemma {:induction false} CivilUndo(y: nat, d: nat)
    requires y >= 1970
    ensures RealDate(Civil(y, d)) && DayNumber(Civil(y, d)) == YearStart(y) + d
    decreases d
  {
    if d < YearDays(y) {
      InYearUndo(y, 0, d);
    } else {
      CivilUndo(y + 1, d - YearDays(y));
    }
  }

  // ---- text ----

  /** Printed with at least w digits. */
  function AtLeast(w: nat, n: nat): (s: string)
    ensures AllDigits(s) && |s| >= w && FromDec(s) == n
  {
    if n < Pow10(w) then
      PadRoundTrip(w, n);
      Pad(w, n)
    else
      DecRoundTrip(n);
      DecLength(w, n);
      Dec(n)
  }

  lemma {:induction false} DecLength(w: nat, n: nat)
    requires n >= Pow10(w)
    ensures |Dec(n)| > w
  {
    if w > 0 { DecLength(w - 1, n / 10); }
  }

  function Clock(date: Date, sec: nat, millis: nat): string {
    "-" + AtLeast(2, date.month + 1) + "-" + AtLeast(2, date.day + 1)
    + "T" + AtLeast(2, sec / 3600) + ":" + AtLeast(2, sec / 60 % 60) + ":" + AtLeast(2, sec % 60)
    + "." + AtLeast(3, millis) + "Z"
  }

  function Iso(ms: nat): string {
    var date := Civil(1970, ms / 86400000);
    AtLeast(4, date.year) + Clock(date, ms / 1000 % 86400, ms % 1000)
  }

  /** The number written in text[i..j], or zero when that is not all digits. */
  function Field(text: string, i: nat, j: nat): nat {
    if i <= j <= |text| && AllDigits(text[i..j]) then FromDec(text[i..j]) else 0
  }

  function ReadClock(year: nat, text: string): nat {
    var day := YearStart(year) + MonthStart(year, if Field(text, 1, 3) > 0 then Field(text, 1, 3) - 1 else 0)
      + (if Field(text, 4, 6) > 0 then Field(text, 4, 6) - 1 else 0);
    ((day * 24 + Field(text, 7, 9)) * 60 + Field(text, 10, 12)) * 60000 + Field(text, 13, 15) * 1000 + Field(text, 16, 19)
  }

  /** The timestamp a text stands for. */
  function ReadIso(text: string): nat {
    var k := Span(text);
    ReadClock(FromDec(text[..k]), text[k..])
  }

  lemma TwoDigits(n: nat)
    requires n < 100
    ensures |AtLeast(2, n)| == 2
  {
  }

  lemma ThreeDigits(n: nat)
    requires n < 1000
    ensures |AtLeast(3, n)| == 3
  {
  }

  /** Where the fields of a clock text lie. */
  lemma FieldsAt(mo: string, da: string, h: string, mi: string, se: string, ms: string)
    requires |mo| == |da| == |h| == |mi| == |se| == 2 && |ms| == 3
    ensures var text := "-" + mo + "-" + da + "T" + h + ":" + mi + ":" + se + "." + ms + "Z";
      && |text| == 20 && text[0] == '-'
      && text[1..3] == mo && text[4..6] == da && text[7..9] == h && text[10..12] == mi && text[13..15] == se
      && text[16..19] == ms
      && text[3] == '-' && text[6] == 'T' && text[9] == ':' && text[12] == ':' && text[15] == '.' && text[19] == 'Z'
  {
    var text := "-" + mo + "-" + da + "T" + h + ":" + mi + ":" + se + "." + ms + "Z";
    assert text == ['-', mo[0], mo[1], '-', da[0], da[1], 'T', h[0], h[1], ':', mi[0], mi[1], ':', se[0], se[1], '.',
                    ms[0], ms[1], ms[2], 'Z'];
    assert text[1..3] == mo && text[4..6] == da && text[7..9] == h;
    assert text[10..12] == mi && text[13..15] == se && text[16..19] == ms;
  }

  lemma FieldReads(text: string, i: nat, j: nat, w: nat, n: nat)
    requires i <= j <= |text| && text[i..j] == AtLeast(w, n)
    ensures Field(text, i, j) == n
  {
    hide AtLeast;
  }

  lemma ClockSum(day: nat, sec: nat, millis: nat)
    requires sec < 86400
    ensures ((day * 24 + sec / 3600) * 60 + sec / 60 % 60) * 60000 + sec % 60 * 1000 + millis
      == day * 86400000 + sec * 1000 + millis
  {
    assert sec / 3600 * 3600 + sec / 60 % 60 * 60 + sec % 60 == sec;
  }

  lemma ClockFields(date: Date, sec: nat, millis: nat)
    requires RealDate(date) && sec < 86400 && millis < 1000
    ensures var text := Clock(date, sec, millis);
      && |text| == 20 && text[0] == '-'
      && Field(text, 1, 3) == date.month + 1 && Field(text, 4, 6) == date.day + 1
      && Field(text, 7, 9) == sec / 3600 && Field(text, 10, 12) == sec / 60 % 60 && Field(text, 13, 15) == sec % 60
      && Field(text, 16, 19) == millis
  {
    hide AtLeast, Field;
    var text, h, m, s := Clock(date, sec, millis), sec / 3600, sec / 60 % 60, sec % 60;
    TwoDigits(date.month + 1);
    TwoDigits(date.day + 1);
    TwoDigits(h);
    TwoDigits(m);
    TwoDigits(s);
    ThreeDigits(millis);
    FieldsAt(AtLeast(2, date.month + 1), AtLeast(2, date.day + 1), AtLeast(2, h), AtLeast(2, m), AtLeast(2, s),
             AtLeast(3, millis));
    FieldReads(text, 1, 3, 2, date.month + 1);
    FieldReads(text, 4, 6, 2, date.day + 1);
    FieldReads(text, 7, 9, 2, h);
    FieldReads(text, 10, 12, 2, m);
    FieldReads(text, 13, 15, 2, s);
    FieldReads(text, 16, 19, 3, millis);
  }

  lemma ReadClockUndo(date: Date, sec: nat, millis: nat)
    requires RealDate(date) && sec < 86400 && millis < 1000
    ensures Clock(date, sec, millis) != "" && Clock(date, sec, millis)[0] == '-'
    ensures ReadClock(date.year, Clock(date, sec, millis)) == DayNumber(date) * 86400000 + sec * 1000 + millis
  {
    hide Clock, Field, YearStart, MonthStart;
    ClockFields(date, sec, millis);
    ClockSum(DayNumber(date), sec, millis);
  }

  /** Every timestamp from 1970 on is read back to the millisecond, so no two share a text. */
  lemma IsoUndo(ms: nat)
    ensures ReadIso(Iso(ms)) == ms
  {
    hide Clock, ReadClock, DayNumber, Civil, AtLeast;
    var days, sec, millis := ms / 86400000, ms / 1000 % 86400, ms % 1000;
    var date := Civil(1970, days);
    CivilUndo(1970, days);
    ReadClockUndo(date, sec, millis);
    SpanStops(AtLeast(4, date.year), Clock(date, sec, millis));
    assert YearStart(1970) == 0;
    assert days * 86400000 + sec * 1000 + millis == ms;
  }

  /** -MM-DDThh:mm:ss.mmmZ in digits. */
  predicate ClockForm(t: string) {
    && |t| == 20 && t[0] == '-' && t[3] == '-' && t[6] == 'T' && t[9] == ':' && t[12] == ':' && t[15] == '.' && t[19] == 'Z'
    && AllDigits(t[1..3]) && AllDigits(t[4..6]) && AllDigits(t[7..9]) && AllDigits(t[10..12]) && AllDigits(t[13..15])
    && AllDigits(t[16..19])
  }

  /** The numbers written in a clock text. */
  predicate ClockReads(t: string, month: nat, day: nat, h: nat, mi: nat, s: nat, millis: nat)
    requires ClockForm(t)
  {
    && FromDec(t[1..3]) == month && FromDec(t[4..6]) == day && FromDec(t[7..9]) == h && FromDec(t[10..12]) == mi
    && FromDec(t[13..15]) == s && FromDec(t[16..19]) == millis
  }

  lemma ClockExact(date: Date, sec: nat, millis: nat)
    requires RealDate(date) && sec < 86400 && millis < 1000
    ensures ClockForm(Clock(date, sec, millis))
    ensures ClockReads(Clock(date, sec, millis), date.month + 1, date.day + 1, sec / 3600, sec / 60 % 60, sec % 60, millis)
  {
    hide AtLeast;
    var h, m, s := sec / 3600, sec / 60 % 60, sec % 60;
    TwoDigits(date.month + 1);
    TwoDigits(date.day + 1);
    TwoDigits(h);
    TwoDigits(m);
    TwoDigits(s);
    ThreeDigits(millis);
    FieldsAt(AtLeast(2, date.month + 1), AtLeast(2, date.day + 1), AtLeast(2, h), AtLeast(2, m), AtLeast(2, s),
             AtLeast(3, millis));
  }

  /**
    The text is a year of at least four digits, with no leading zero beyond four, and a clock text; the date is the one so
    many days after the first of 1970, and the time what is left of the day.
   */
  lemma IsoExact(ms: nat) returns (k: nat)
    ensures var text, date := Iso(ms), Civil(1970, ms / 86400000);
      && 4 <= k && |text| == k + 20 && AllDigits(text[..k]) && FromDec(text[..k]) == date.year && (k > 4 ==> text[0] != '0')
      && RealDate(date) && DayNumber(date) == ms / 86400000 && ClockForm(text[k..])
      && ClockReads(text[k..], date.month + 1, date.day + 1, ms / 3600000 % 24, ms / 60000 % 60, ms / 1000 % 60, ms % 1000)
  {
    hide AtLeast, Civil, DayNumber, YearStart, MonthStart, Clock, ClockForm, ClockReads, RealDate;
    var date := Civil(1970, ms / 86400000);
    CivilUndo(1970, ms / 86400000);
    YearZero();
    var year, clock := AtLeast(4, date.year), Clock(date, ms / 1000 % 86400, ms % 1000);
    k := |year|;
    YearForm(date.year);
    ClockExact(date, ms / 1000 % 86400, ms % 1000);
    ClockFormSize(clock);
    Hours(ms);
    assert Iso(ms)[..k] == year && Iso(ms)[k..] == clock;
  }

  lemma ClockFormSize(t: string)
    requires ClockForm(t)
    ensures |t| == 20
  {
  }

  lemma YearZero()
    ensures YearStart(1970) == 0
  {
  }

  lemma Hours(ms: nat)
    ensures ms / 1000 % 86400 / 3600 == ms / 3600000 % 24
    ensures ms / 1000 % 86400 / 60 % 60 == ms / 60000 % 60 && ms / 1000 % 86400 % 60 == ms / 1000 % 60
  {
    var t := ms / 1000;
    assert ms / 60000 == t / 60 && ms / 3600000 == t / 3600;
    DayParts(t / 86400, t % 86400);
    assert t == 86400 * (t / 86400) + t % 86400;
  }

  lemma DayParts(day: nat, sec: nat)
    requires sec < 86400
    ensures (86400 * day + sec) / 3600 % 24 == sec / 3600
    ensures (86400 * day + sec) / 60 % 60 == sec / 60 % 60 && (86400 * day + sec) % 60 == sec % 60
  {
    var t := 86400 * day + sec;
    assert t / 3600 == 24 * day + sec / 3600;
    assert t / 60 == 60 * (24 * day) + sec / 60;
    assert t % 60 == sec % 60;
  }

  lemma YearForm(y: nat)
    ensures |AtLeast(4, y)| > 4 ==> AtLeast(4, y)[0] != '0'
  {
    if y > 0 { DecNotZero(y); }
  }
}
