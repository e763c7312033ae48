// Broken-down UTC time, its epoch second, and the real-time clock's registers.
module Epoch {
  import opened Bytes
  import opened Calendar

  // C's struct tm: month 0..11, year since 1900, weekday 0 = Sunday.
  datatype Tm = Tm(sec: int, min: int, hour: int, mday: int, mon: int, year: int, wday: int)

  function DateOfTm(t: Tm): Date {
    Date(t.year + 1900, t.mon + 1, t.mday)
  }

  // utc_tm_to_epoch()
  function EpochOf(t: Tm): int {
    DayNumber(DateOfTm(t)) * 86400 + t.hour * 3600 + t.min * 60 + t.sec
  }

  // The broken-down form of an instant: walk the calendar for the date.
  function BreakDown(e: int): Tm {
    var day, s := e / 86400, e % 86400;
    var t := DateOf(day);
    Tm(s % 60, s / 60 % 60, s / 3600, t.d, t.m - 1, t.y - 1900, (day + 4) % 7)
  }

  predicate ValidTm(t: Tm) {
    && Valid(DateOfTm(t))
    && 0 <= t.hour < 24 && 0 <= t.min < 60 && 0 <= t.sec < 60
  }

  lemma SecondsAdd(s: int)
    requires 0 <= s < 86400
    ensures s == s / 3600 * 3600 + s / 60 % 60 * 60 + s % 60
    ensures 0 <= s / 3600 < 24
  {
    assert s / 3600 == s / 60 / 60;
  }

  // Main result: the conversion inverts the walk, for every instant.
  lemma EpochOfBreakDown(e: int)
    ensures ValidTm(BreakDown(e)) && EpochOf(BreakDown(e)) == e
  {
    hide DateOf, DayNumber;
    var day, s := e / 86400, e % 86400;
    DayNumberCountsDays(DateOf(day), day);
    assert DateOfTm(BreakDown(e)) == DateOf(day);
    SecondsAdd(s);
  }

  // The other way round, for every valid date and time of every year.
  lemma BreakDownOfEpoch(t: Tm)
    requires ValidTm(t)
    ensures BreakDown(EpochOf(t)) == t.(wday := (DayNumber(DateOfTm(t)) + 4) % 7)
  {
    hide DateOf, DayNumber, Valid, DayCount;
    var day := DayNumber(DateOfTm(t));
    var s := t.hour * 3600 + t.min * 60 + t.sec;
    DayNumberCountsDays(DateOfTm(t), day);
    assert DateOf(day) == DateOfTm(t);
    ClockFields(t.hour, t.min, t.sec);
    DayAndSecond(day, s);
  }

  lemma ClockFields(h: int, m: int, s: int)
    requires 0 <= h < 24 && 0 <= m < 60 && 0 <= s < 60
    ensures var x := h * 3600 + m * 60 + s;
            0 <= x < 86400 && x / 3600 == h && x / 60 % 60 == m && x % 60 == s
  {
    var x := h * 3600 + m * 60 + s;
    assert x / 60 == h * 60 + m;
    assert (h * 60 + m) % 60 == m;
  }

  lemma DayAndSecond(day: int, s: int)
    requires 0 <= s < 86400
    ensures (day * 86400 + s) / 86400 == day && (day * 86400 + s) % 86400 == s
  {
  }

  // ---------------------------------------------------------------- registers

  const RAM_MARKER: byte := 0xA5
  const YEAR_BASE := 2000

  function DecToBcd(v: int): byte {
    (CDiv(v, 10) * 16 + (v - CDiv(v, 10) * 10)) % 256
  }

  function BcdToDec(b: byte): int {
    b / 16 * 10 + b % 16
  }

  // The eight bytes from the RAM byte on: marker, seconds, minutes, hours,
  // day, weekday, month, year.
  function Registers(t: Tm): (r: seq<byte>)
    ensures |r| == 8
  {
    [RAM_MARKER, DecToBcd(t.sec) % 128, DecToBcd(t.min), DecToBcd(t.hour), DecToBcd(t.mday),
     DecToBcd(t.wday), DecToBcd(t.mon + 1), DecToBcd(t.year + 1900 - YEAR_BASE)]
  }

  function FromRegisters(b: seq<byte>): Tm
    requires |b| == 8
  {
    Tm(BcdToDec(b[1] % 128), BcdToDec(b[2] % 128), BcdToDec(b[3] % 64), BcdToDec(b[4] % 64),
       BcdToDec(b[6] % 32) - 1, BcdToDec(b[7]) + YEAR_BASE - 1900, BcdToDec(b[5] % 8))
  }

  predicate Trusted(b: seq<byte>)
    requires |b| == 8
  {
    b[1] < 128 && b[0] == RAM_MARKER
  }

  // Two decimal digits survive the packing.
  lemma BcdValue(v: int)
    requires 0 <= v < 100
    ensures DecToBcd(v) == v / 10 * 16 + v % 10
    ensures BcdToDec(DecToBcd(v)) == v
  {
    var q, r := v / 10, v % 10;
    var x := q * 16 + r;
    assert 0 <= x < 256;
    assert x / 16 == q && x % 16 == r;
  }

  lemma SmallMod(x: int, m: int)
    requires 0 <= x < m
    ensures x % m == x
  {
  }

  // They need no more bits than their field has.
  lemma BcdRoundTrip(v: int, top: int)
    requires 0 <= v <= top < 100
    ensures BcdToDec(DecToBcd(v)) == v
    ensures top < 80 ==> DecToBcd(v) % 128 == DecToBcd(v)
    ensures top < 40 ==> DecToBcd(v) % 64 == DecToBcd(v)
    ensures top < 20 ==> DecToBcd(v) % 32 == DecToBcd(v)
    ensures top < 8 ==> DecToBcd(v) % 8 == DecToBcd(v)
  {
    BcdValue(v);
    var x: int := DecToBcd(v);
    var q, r := v / 10, v % 10;
    assert v == 10 * q + r && x == 16 * q + r;
    if top < 80 { SmallMod(x, 128); }
    if top < 40 { SmallMod(x, 64); }
    if top < 20 { SmallMod(x, 32); }
    if top < 8 { SmallMod(x, 8); }
  }

  lemma MarkerAndSeconds(t: Tm)
    requires 0 <= t.sec < 60
    ensures Trusted(Registers(t)) && BcdToDec(Registers(t)[1] % 128) == t.sec
  {
    BcdRoundTrip(t.sec, 59);
  }

  // What is written is what is read, and it is trusted.
  lemma RegistersRoundTrip(t: Tm)
    requires ValidTm(t) && 0 <= t.wday < 7 && YEAR_BASE <= t.year + 1900 < YEAR_BASE + 100
    ensures FromRegisters(Registers(t)) == t && Trusted(Registers(t))
  {
    var b, u := Registers(t), FromRegisters(Registers(t));
    MarkerAndSeconds(t);
    assert u.min == t.min by { BcdRoundTrip(t.min, 59); }
    assert u.hour == t.hour by { BcdRoundTrip(t.hour, 23); }
    assert u.mday == t.mday by { BcdRoundTrip(t.mday, 31); }
    assert u.wday == t.wday by { BcdRoundTrip(t.wday, 6); }
    assert u.mon == t.mon by { BcdRoundTrip(t.mon + 1, 12); }
    assert u.year == t.year by { BcdRoundTrip(t.year + 1900 - YEAR_BASE, 99); }
  }

  // Which register holds what, as two decimal digits.
  predicate Holds(b: byte, v: int) {
    b / 16 * 10 + b % 16 == v && b % 16 < 10
  }

  lemma RegistersHold(t: Tm)
    requires ValidTm(t) && 0 <= t.wday < 7 && 2000 <= t.year + 1900 < 2100
    ensures var b := Registers(t);
            && b[0] == 0xA5 && Holds(b[1], t.sec) && Holds(b[2], t.min) && Holds(b[3], t.hour) && Holds(b[4], t.mday)
            && Holds(b[5], t.wday) && Holds(b[6], t.mon + 1) && Holds(b[7], t.year - 100)
  {
    hide DecToBcd, Holds;
    DateDigits(t);
    TwoDigits(t.sec);
    assert DecToBcd(t.sec) % 128 == DecToBcd(t.sec) by { BcdRoundTrip(t.sec, 59); }
    TwoDigits(t.min);
    TwoDigits(t.hour);
  }

  lemma DateDigits(t: Tm)
    requires ValidTm(t) && 0 <= t.wday < 7 && 2000 <= t.year + 1900 < 2100
    ensures Holds(DecToBcd(t.mday), t.mday) && Holds(DecToBcd(t.wday), t.wday)
    ensures Holds(DecToBcd(t.mon + 1), t.mon + 1)
    ensures Holds(DecToBcd(t.year + 1900 - 2000), t.year - 100)
  {
    TwoDigits(t.mday);
    TwoDigits(t.wday);
    TwoDigits(t.mon + 1);
    TwoDigits(t.year - 100);
    hide DecToBcd, Holds;
  }

  lemma TwoDigits(v: int)
    requires 0 <= v < 100
    ensures Holds(DecToBcd(v), v)
  {
    BcdValue(v);
    var q, r := v / 10, v % 10;
    assert (16 * q + r) / 16 == q && (16 * q + r) % 16 == r;
  }

  // 1970-01-01 was a Thursday, and a day later it is the next day of the week.
  lemma WeekdayTurns(e: int)
    ensures BreakDown(0).wday == 4 && 0 <= BreakDown(e).wday < 7
    ensures BreakDown(e + 86400).wday == (BreakDown(e).wday + 1) % 7
  {
    hide DateOf;
    var day := e / 86400;
    assert (e + 86400) / 86400 == day + 1;
    assert (day + 1 + 4) % 7 == ((day + 4) % 7 + 1) % 7;
  }

  // What a read of the chip gives: the time, and whether it is to be trusted.
  datatype Reading = NoTime | Time(t: Tm, valid: bool)

  // The chip, reached over a bus that may fail.
  class Rtc {
    const regs: array<byte>

    constructor ()
      ensures fresh(regs) && regs.Length == 8
    {
      regs := new byte[8];
    }

    // rtc_dev_set(): false for a year outside 2000..2099 and for a failed transfer.
    method Set(t: Tm, busOk: bool) returns (ok: bool)
      requires regs.Length == 8
      modifies regs
      ensures ok <==> busOk && YEAR_BASE <= t.year + 1900 <= YEAR_BASE + 99
      ensures regs[..] == if ok then Registers(t) else old(regs[..])
    {
      var year := t.year + 1900;
      if year < YEAR_BASE || year > YEAR_BASE + 99 { return false; }
      var b := Registers(t);
      if busOk {
        forall i | 0 <= i < 8 { regs[i] := b[i]; }
      }
      return busOk;
    }

    // rtc_dev_read(): nothing at all after a failed transfer.
    method Read(busOk: bool) returns (r: Reading)
      requires regs.Length == 8
      ensures r == if busOk then Time(FromRegisters(regs[..]), Trusted(regs[..])) else NoTime
    {
      if !busOk { return NoTime; }
      var b := regs[..];
      r := Time(FromRegisters(b), b[1] / 128 == 0 && b[0] == RAM_MARKER);
    }
  }

  // Main result: an instant of 2000..2099 written to the clock and read back
  // is trusted and converts to the same epoch second.
  method ClockKeepsInstant(rtc: Rtc, e: int) returns (back: int, valid: bool)
    requires rtc.regs.Length == 8
    requires YEAR_BASE <= DateOf(e / 86400).y <= YEAR_BASE + 99
    modifies rtc.regs
    ensures valid && back == e
  {
    EpochOfBreakDown(e);
    RegistersRoundTrip(BreakDown(e));
    var _ := rtc.Set(BreakDown(e), true);
    var r := rtc.Read(true);
    back, valid := EpochOf(r.t), r.valid;
  }

  // ------------------------------------------------ the chip's own leap years

  // The chip gives February 29 days in every register year divisible by four.
  predicate LeapAgrees(base: int, k: int) {
    k % 4 == 0 <==> IsLeap(base + k)
  }

  predicate ChipKeepsCalendar(base: int) {
    forall k :: 0 <= k < 100 ==> LeapAgrees(base, k)
  }

  // The century year among base .. base + 99.
  function CenturyFrom(base: int): int {
    (base + 99) / 100 * 100
  }

  lemma CenturyInReach(base: int)
    ensures base <= CenturyFrom(base) < base + 100
    ensures CenturyFrom(base) % 100 == 0 && CenturyFrom(base) % 4 == 0
  {
    Hundreds((base + 99) / 100);
  }

  lemma Hundreds(q: int)
    ensures q * 100 % 100 == 0 && q * 100 % 4 == 0
  {
    ByFour(q * 100, 25 * q);
    ByHundred(q * 100, q);
  }

  lemma ByHundred(x: int, q: int)
    requires x == 100 * q
    ensures x % 100 == 0
  {
  }

  lemma ByFour(x: int, q: int)
    requires x == 4 * q
    ensures x % 4 == 0
  {
  }

  lemma CenturyLeap(c: int)
    requires c % 100 == 0 && IsLeap(c)
    ensures c % 400 == 0
  {
  }

  // Two years less than a century apart are not both century years.
  lemma OneCentury(y: int, c: int)
    requires c % 100 == 0 && y != c && -100 < y - c < 100
    ensures y % 100 != 0
  {
    var i, j := y / 100, c / 100;
    assert c == 100 * j && y == 100 * i + y % 100;
  }

  lemma FourHundredth(c: int)
    requires c % 400 == 0
    ensures c % 100 == 0 && IsLeap(c)
  {
    var q := c / 400;
    assert c == 400 * q;
  }

  lemma OrdinaryYear(y: int)
    requires y % 100 != 0
    ensures IsLeap(y) <==> y % 4 == 0
  {
  }

  lemma Quarters(base: int, k: int)
    requires base % 4 == 0
    ensures (base + k) % 4 == 0 <==> k % 4 == 0
  {
  }

  lemma CenturyBetween(base: int, c: int, k: int)
    requires base % 4 == 0 && c % 400 == 0 && 0 <= c - base < 100 && 0 <= k < 100
    ensures LeapAgrees(base, k)
  {
    hide IsLeap;
    var y := base + k;
    FourHundredth(c);
    Quarters(base, k);
    if y == c {
      LeapYear(c);
    } else {
      OneCentury(y, c);
      OrdinaryYear(y);
    }
  }

  lemma LeapYear(y: int)
    requires IsLeap(y)
    ensures y % 4 == 0
  {
  }

  // Exactly which year the register may count from: a year divisible by four
  // whose hundred years hold a century year that is a leap year.
  lemma YearBaseCondition(base: int)
    ensures ChipKeepsCalendar(base) <==> base % 4 == 0 && CenturyFrom(base) % 400 == 0
  {
    var c := CenturyFrom(base);
    CenturyInReach(base);
    hide IsLeap, CenturyFrom;
    if ChipKeepsCalendar(base) {
      assert LeapAgrees(base, 0) && LeapAgrees(base, c - base);
      LeapYear(base);
      Quarters(base, c - base);
      CenturyLeap(c);
    }
    if base % 4 == 0 && c % 400 == 0 {
      forall k | 0 <= k < 100 ensures LeapAgrees(base, k) {
        CenturyBetween(base, c, k);
      }
    }
  }

  // 2000 is such a year; 1970, which older firmware counted from, is not.
  lemma YearBase2000()
    ensures ChipKeepsCalendar(YEAR_BASE) && !ChipKeepsCalendar(1970)
  {
    YearBaseCondition(YEAR_BASE);
    YearBaseCondition(1970);
  }
}
