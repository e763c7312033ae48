// The proleptic Gregorian calendar, defined day by day from 1970-01-01, and
// the closed-form day count that app_time.c uses for it.
module Calendar {

  datatype Date = Date(y: int, m: int, d: int)

  predicate IsLeap(y: int) {
    y % 4 == 0 && (y % 100 != 0 || y % 400 == 0)
  }

  function DaysInMonth(y: int, m: int): int {
    if m == 2 then (if IsLeap(y) then 29 else 28)
    else if m == 4 || m == 6 || m == 9 || m == 11 then 30
    else 31
  }

  predicate Valid(t: Date) {
    1 <= t.m <= 12 && 1 <= t.d <= DaysInMonth(t.y, t.m)
  }

  function FirstOfNextMonth(t: Date): Date {
    if t.m == 12 then Date(t.y + 1, 1, 1) else Date(t.y, t.m + 1, 1)
  }

  function NextDay(t: Date): (r: Date)
    requires Valid(t)
    ensures Valid(r)
  {
    if t.d < DaysInMonth(t.y, t.m) then t.(d := t.d + 1) else FirstOfNextMonth(t)
  }

  function PrevDay(t: Date): (r: Date)
    requires Valid(t)
    ensures Valid(r) && NextDay(r) == t
  {
    if t.d > 1 then t.(d := t.d - 1)
    else if t.m == 1 then Date(t.y - 1, 12, 31)
    else Date(t.y, t.m - 1, DaysInMonth(t.y, t.m - 1))
  }

  // The date n days after 1970-01-01, found by walking the calendar.
  function DateOf(n: int): (t: Date)
    ensures Valid(t)
    decreases if n < 0 then -n else n
  {
    if n == 0 then Date(1970, 1, 1)
    else if n > 0 then NextDay(DateOf(n - 1))
    else PrevDay(DateOf(n + 1))
  }

  // C's integer division, which truncates towards zero.
  function CDiv(a: int, b: int): int
    requires b > 0
  {
    if a >= 0 then a / b else -((-a) / b)
  }

  // Days from 1970-01-01 by the era arithmetic of utc_tm_to_epoch().
  function DayNumber(t: Date): int {
    var y := if t.m <= 2 then t.y - 1 else t.y;
    var era := CDiv(if y >= 0 then y else y - 399, 400);
    var yoe := y - era * 400;
    var doy := (153 * (if t.m > 2 then t.m - 3 else t.m + 9) + 2) / 5 + t.d - 1;
    var doe := yoe * 365 + yoe / 4 - yoe / 100 + doy;
    era * 146097 + doe - 719468
  }

  // Days before 1 March of year y, counted from 1 March of year 0.
  function MarchDays(y: int): int {
    365 * y + y / 4 - y / 100 + y / 400
  }

  lemma EraDivides(y: int)
    ensures CDiv(if y >= 0 then y else y - 399, 400) == y / 400
  {
    if y < 0 {
      var q, r := y / 400, y % 400;
      assert y == 400 * q + r && 0 <= r < 400;
      assert -(y - 399) == 400 * (-q) + (399 - r);
      assert (-(y - 399)) / 400 == -q;
    }
  }

  lemma EraForm(y: int)
    ensures (y / 400) * 146097 + (y % 400) * 365 + (y % 400) / 4 - (y % 400) / 100 == MarchDays(y)
  {
    var q, r := y / 400, y % 400;
    assert y == 400 * q + r;
    assert y / 4 == 100 * q + r / 4;
    assert y / 100 == 4 * q + r / 100;
  }

  // Days before the first of month m, counted from 1 March.
  function MonthStart(m: int): int {
    if m == 3 then 0 else if m == 4 then 31 else if m == 5 then 61 else if m == 6 then 92
    else if m == 7 then 122 else if m == 8 then 153 else if m == 9 then 184 else if m == 10 then 214
    else if m == 11 then 245 else if m == 12 then 275 else if m == 1 then 306 else 337
  }

  function MarchYear(t: Date): int {
    if t.m <= 2 then t.y - 1 else t.y
  }

  // The same count without eras, which is what the proofs work on.
  function DayCount(t: Date): int {
    MarchDays(MarchYear(t)) + MonthStart(t.m) + t.d - 1 - 719468
  }

  lemma MonthFormula(m: int)
    requires 1 <= m <= 12
    ensures (153 * (if m > 2 then m - 3 else m + 9) + 2) / 5 == MonthStart(m)
  {
  }

  lemma DayNumberIsDayCount(t: Date)
    requires Valid(t)
    ensures DayNumber(t) == DayCount(t)
  {
    var y := MarchYear(t);
    EraDivides(y);
    EraForm(y);
    assert y - (y / 400) * 400 == y % 400;
    MonthFormula(t.m);
  }

  lemma MarchYearLength(y: int)
    ensures MarchDays(y + 1) - MarchDays(y) == (if IsLeap(y + 1) then 366 else 365)
  {
    assert (y + 1) / 4 - y / 4 == (if (y + 1) % 4 == 0 then 1 else 0);
    assert (y + 1) / 100 - y / 100 == (if (y + 1) % 100 == 0 then 1 else 0);
    assert (y + 1) / 400 - y / 400 == (if (y + 1) % 400 == 0 then 1 else 0);
  }

  lemma DayCountSteps(t: Date)
    requires Valid(t)
    ensures DayCount(NextDay(t)) == DayCount(t) + 1
  {
    if t.m == 2 { MarchYearLength(t.y - 1); }
  }

  lemma {:induction false} DayCountOfDate(n: int)
    ensures DayCount(DateOf(n)) == n
    decreases if n < 0 then -n else n
  {
    if n == 0 {
      assert MarchDays(1969) == 719468 - 306;
    } else if n > 0 {
      DayCountOfDate(n - 1);
      DayCountSteps(DateOf(n - 1));
    } else {
      DayCountOfDate(n + 1);
      DayCountSteps(DateOf(n));
    }
  }

  predicate Before(a: Date, b: Date) {
    a.y < b.y || (a.y == b.y && (a.m < b.m || (a.m == b.m && a.d < b.d)))
  }

  lemma QuarterBeatsCentury(a: int, b: int)
    requires a <= b
    ensures b / 4 - a / 4 >= b / 100 - a / 100
  {
    var p, r, q, s := a / 100, a % 100, b / 100, b % 100;
    assert a / 4 == 25 * p + r / 4 && b / 4 == 25 * q + s / 4;
  }

  lemma MarchDaysGrow(a: int, b: int)
    requires a <= b
    ensures MarchDays(a) + 365 * (b - a) <= MarchDays(b)
  {
    QuarterBeatsCentury(a, b);
  }

  // The count follows calendar order.
  lemma DayCountOrdered(a: Date, b: Date)
    requires Valid(a) && Valid(b) && Before(a, b)
    ensures DayCount(a) < DayCount(b)
  {
    var ya, yb := MarchYear(a), MarchYear(b);
    if ya < yb {
      MarchYearLength(ya);
      MarchDaysGrow(ya + 1, yb);
    }
  }

  // Main result: the closed form of utc_tm_to_epoch() and the walk from
  // 1970-01-01 are inverse to each other, so the closed form is the number of
  // days walked -- for every date of every year.
  lemma DayNumberCountsDays(t: Date, n: int)
    requires Valid(t)
    ensures DayNumber(t) == n <==> DateOf(n) == t
  {
    DayNumberIsDayCount(t);
    DayCountOfDate(n);
    if DayCount(t) == n && DateOf(n) != t {
      if Before(t, DateOf(n)) { DayCountOrdered(t, DateOf(n)); } else { DayCountOrdered(DateOf(n), t); }
    }
  }

  // Later days have later dates.
  lemma DatesOrdered(a: int, b: int)
    requires a < b
    ensures Before(DateOf(a), DateOf(b))
  {
    DayCountOfDate(a);
    DayCountOfDate(b);
    if Before(DateOf(b), DateOf(a)) { DayCountOrdered(DateOf(b), DateOf(a)); }
  }

  // k days later, as long as the month lasts, only the day of the month moves.
  lemma {:induction false} WithinMonth(n: int, k: nat)
    requires DateOf(n).d + k <= DaysInMonth(DateOf(n).y, DateOf(n).m)
    ensures DateOf(n + k) == DateOf(n).(d := DateOf(n).d + k)
  {
    hide DateOf, IsLeap;
    if k > 0 {
      WithinMonth(n, k - 1);
      StepsForward(n + k - 1);
    }
  }

  lemma StepsForward(n: int)
    ensures DateOf(n + 1) == NextDay(DateOf(n))
  {
  }
}
