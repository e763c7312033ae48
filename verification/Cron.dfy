// cron(): expanding the five fields, and the search for the next minute that
// matches them.
module Cron {
  import opened Calendar
  import opened Options

  // ------------------------------------------------------------------ fields

  // What parseInt() makes of a piece of text.
  datatype Num = NaN | Int(v: int)

  // One comma-separated part of a field, its text already split at '/' and '-'.
  datatype Body = Star | Dash(lo: Num, hi: Num) | One(n: Num)
  datatype Part = Part(body: Body, step: Option<Num>)

  datatype Expansion = Values(vs: set<int>) | BadField

  function LoOf(p: Part, min: int): Num {
    match p.body
    case Star => Int(min)
    case Dash(lo, _) => lo
    case One(n) => n
  }

  function HiOf(p: Part, max: int): Num {
    match p.body
    case Star => Int(max)
    case Dash(_, hi) => hi
    case One(n) => if p.step.Some? then Int(max) else n
  }

  function StepOf(p: Part): Num {
    if p.step.Some? then p.step.value else Int(1)
  }

  predicate PartOk(p: Part, min: int, max: int) {
    && StepOf(p).Int? && StepOf(p).v >= 1
    && LoOf(p, min).Int? && HiOf(p, max).Int?
    && min <= LoOf(p, min).v <= HiOf(p, max).v <= max
  }

  // v lies on the part's grid.
  predicate Selects(p: Part, min: int, max: int, v: int)
    requires PartOk(p, min, max)
  {
    LoOf(p, min).v <= v <= HiOf(p, max).v && OnGrid(LoOf(p, min).v, StepOf(p).v, v)
  }

  predicate FieldOk(parts: seq<Part>, min: int, max: int) {
    forall i :: 0 <= i < |parts| ==> PartOk(parts[i], min, max)
  }

  ghost predicate Selected(parts: seq<Part>, min: int, max: int, v: int)
    requires FieldOk(parts, min, max)
  {
    exists i :: 0 <= i < |parts| && Selects(parts[i], min, max, v)
  }

  lemma MultipleAtLeast(k: int, m: int)
    requires k >= 1 && m >= 1
    ensures k * m >= m
  {
  }

  lemma ModUnique(x: int, m: int, q: int, r: int)
    requires m >= 1 && 0 <= r < m && x == q * m + r
    ensures x % m == r
  {
    var q', r' := x / m, x % m;
    assert x == m * q' + r';
    if q > q' {
      assert (q - q') * m == q * m - q' * m;
      MultipleAtLeast(q - q', m);
    } else if q' > q {
      assert (q' - q) * m == q' * m - q * m;
      MultipleAtLeast(q' - q, m);
    }
  }

  predicate OnGrid(lo: int, step: int, v: int)
    requires step >= 1
  {
    (v - lo) % step == 0
  }

  // From a grid value on, the next one is step further.
  lemma GridStep(lo: int, v: int, w: int, step: int)
    requires step >= 1 && v <= w < v + step && OnGrid(lo, step, v)
    ensures OnGrid(lo, step, w) <==> w == v
    ensures OnGrid(lo, step, v + step)
  {
    var q := (v - lo) / step;
    assert v - lo == step * q;
    assert w - lo == q * step + (w - v);
    ModUnique(w - lo, step, q, w - v);
    assert v + step - lo == (q + 1) * step + 0;
    ModUnique(v + step - lo, step, q + 1, 0);
  }

  // The inner loop of _cronField(): every step-th value from lo to hi.
  method AddGrid(start: set<int>, p: Part, min: int, max: int) returns (vs: set<int>)
    requires PartOk(p, min, max)
    ensures forall v :: v in vs <==> v in start || Selects(p, min, max, v)
  {
    var lo, hi, step := LoOf(p, min).v, HiOf(p, max).v, StepOf(p).v;
    vs := start;
    var v := lo;
    while v <= hi
      invariant lo <= v && OnGrid(lo, step, v)
      invariant forall w :: w in vs <==> w in start || (lo <= w < v && w <= hi && OnGrid(lo, step, w))
      decreases hi - v
    {
      forall w | v <= w < v + step
        ensures OnGrid(lo, step, w) <==> w == v
      {
        GridStep(lo, v, w, step);
      }
      GridStep(lo, v, v, step);
      vs := vs + {v};
      v := v + step;
    }
  }

  // _cronField(): refused when a part is out of range or its step is not a
  // positive number, otherwise exactly the values some part selects.
  method CronField(parts: seq<Part>, min: int, max: int) returns (r: Expansion)
    ensures r.Values? <==> FieldOk(parts, min, max)
    ensures r.Values? ==> forall v :: v in r.vs <==> Selected(parts, min, max, v)
  {
    var vs: set<int> := {};
    var i := 0;
    while i < |parts|
      invariant 0 <= i <= |parts|
      invariant FieldOk(parts[..i], min, max)
      invariant forall v :: v in vs <==> Selected(parts[..i], min, max, v)
    {
      var p := parts[i];
      var step, lo, hi := StepOf(p), LoOf(p, min), HiOf(p, max);
      if !(step.Int? && step.v >= 1) { return BadField; }
      if !(lo.Int? && hi.Int? && lo.v >= min && hi.v <= max && lo.v <= hi.v) { return BadField; }
      ghost var before := vs;
      vs := AddGrid(vs, p, min, max);
      assert parts[..i + 1] == parts[..i] + [p];
      forall v ensures v in vs <==> Selected(parts[..i + 1], min, max, v) {
        if v in before {
          var j :| 0 <= j < i && Selects(parts[..i][j], min, max, v);
          assert Selects(parts[..i + 1][j], min, max, v);
        }
        if Selects(p, min, max, v) { assert Selects(parts[..i + 1][i], min, max, v); }
        if Selected(parts[..i + 1], min, max, v) {
          var j :| 0 <= j < i + 1 && Selects(parts[..i + 1][j], min, max, v);
          if j < i { assert Selects(parts[..i][j], min, max, v); }
        }
      }
      i := i + 1;
    }
    assert parts[..|parts|] == parts;
    r := Values(vs);
  }

  datatype Fields = Fields(minute: set<int>, hour: set<int>, dom: set<int>, month: set<int>,
                           dow: set<int>, domR: bool, dowR: bool)

  // Both 0 and 7 are Sunday.
  function FoldSunday(dow: set<int>): (r: set<int>)
    ensures 7 !in r && (0 in r <==> 0 in dow || 7 in dow)
    ensures forall v :: v != 0 && v != 7 ==> (v in r <==> v in dow)
  {
    if 7 in dow then dow + {0} - {7} else dow
  }

  datatype Parsed = Cron(f: Fields) | BadCron

  // The text of the field is exactly "*".
  predicate IsStar(parts: seq<Part>) {
    parts == [Part(Star, None)]
  }

  predicate FieldsOk(texts: seq<seq<Part>>) {
    && |texts| == 5
    && FieldOk(texts[0], 0, 59) && FieldOk(texts[1], 0, 23) && FieldOk(texts[2], 1, 31)
    && FieldOk(texts[3], 1, 12) && FieldOk(texts[4], 0, 7)
  }

  // What five good fields mean.
  ghost predicate MeansFields(texts: seq<seq<Part>>, f: Fields)
    requires FieldsOk(texts)
  {
    && (forall v :: v in f.minute <==> Selected(texts[0], 0, 59, v))
    && (forall v :: v in f.hour <==> Selected(texts[1], 0, 23, v))
    && (forall v :: v in f.dom <==> Selected(texts[2], 1, 31, v))
    && (forall v :: v in f.month <==> Selected(texts[3], 1, 12, v))
    && (forall v :: v in f.dow <==> v != 7 && (Selected(texts[4], 0, 7, v) || (v == 0 && Selected(texts[4], 0, 7, 7))))
    && f.domR == !IsStar(texts[2]) && f.dowR == !IsStar(texts[4])
  }

  // _parseCron(), on text already split into fields and parts.
  method ParseCron(texts: seq<seq<Part>>) returns (r: Parsed)
    ensures r.Cron? <==> FieldsOk(texts)
    ensures r.Cron? ==> MeansFields(texts, r.f)
  {
    if |texts| != 5 { return BadCron; }
    hide Selected, PartOk;
    var dow := CronField(texts[4], 0, 7);
    if dow == BadField { return BadCron; }
    var minute := CronField(texts[0], 0, 59);
    if minute == BadField { return BadCron; }
    var hour := CronField(texts[1], 0, 23);
    if hour == BadField { return BadCron; }
    var dom := CronField(texts[2], 1, 31);
    if dom == BadField { return BadCron; }
    var month := CronField(texts[3], 1, 12);
    if month == BadField { return BadCron; }
    var folded := FoldSunday(dow.vs);
    r := Cron(Fields(minute.vs, hour.vs, dom.vs, month.vs, folded, !IsStar(texts[2]), !IsStar(texts[4])));
    assert forall v :: v in folded <==> v != 7 && (v in dow.vs || (v == 0 && 7 in dow.vs));
  }

  // ------------------------------------------- what five good fields ask for

  // v is lo or a whole number of steps above it.
  function Above(lo: int, step: int, k: nat): int { lo + k * step }

  ghost predicate InSteps(lo: int, step: int, v: int) {
    exists k: nat :: v == Above(lo, step, k)
  }

  // One part as it is read: "*" all values, "a-b" those from a to b, "a" only
  // a, but with a step all from a on; of these every step-th one.
  ghost predicate Picks(p: Part, min: int, max: int, v: int)
    requires p.step.Some? ==> p.step.value.Int?
    requires match p.body case Star => true case Dash(lo, hi) => lo.Int? && hi.Int? case One(n) => n.Int?
  {
    match p.body
    case Star => min <= v <= max && (p.step.Some? ==> InSteps(min, p.step.value.v, v))
    case Dash(lo, hi) => lo.v <= v <= hi.v && (p.step.Some? ==> InSteps(lo.v, p.step.value.v, v))
    case One(n) => if p.step.Some? then n.v <= v <= max && InSteps(n.v, p.step.value.v, v) else v == n.v
  }

  lemma SelectsPicks(p: Part, min: int, max: int, v: int)
    requires PartOk(p, min, max)
    ensures Selects(p, min, max, v) <==> Picks(p, min, max, v)
  {
    var lo, step := LoOf(p, min).v, StepOf(p).v;
    if Selects(p, min, max, v) {
      var q := (v - lo) / step;
      assert v - lo == step * q + (v - lo) % step;
      if q < 0 { MultipleAtLeast(-q, step); }
      assert v == Above(lo, step, q);
    }
    if InSteps(lo, step, v) {
      var k: nat :| v == Above(lo, step, k);
      ModUnique(v - lo, step, k, 0);
    }
  }

  // The field's text selects v.
  ghost predicate Asks(parts: seq<Part>, min: int, max: int, v: int)
    requires FieldOk(parts, min, max)
  {
    exists i :: 0 <= i < |parts| && Picks(parts[i], min, max, v)
  }

  lemma SelectedAsks(parts: seq<Part>, min: int, max: int, v: int)
    requires FieldOk(parts, min, max)
    ensures Selected(parts, min, max, v) <==> Asks(parts, min, max, v)
  {
    forall i | 0 <= i < |parts| ensures Selects(parts[i], min, max, v) <==> Picks(parts[i], min, max, v) {
      SelectsPicks(parts[i], min, max, v);
    }
    hide Picks, Selects;
    if Selected(parts, min, max, v) {
      var i :| 0 <= i < |parts| && Selects(parts[i], min, max, v);
      assert Picks(parts[i], min, max, v);
    }
    if Asks(parts, min, max, v) {
      var i :| 0 <= i < |parts| && Picks(parts[i], min, max, v);
      assert Selects(parts[i], min, max, v);
    }
  }

  // 0 and 7 are both Sunday.
  ghost predicate AsksWeekday(parts: seq<Part>, dow: int)
    requires FieldOk(parts, 0, 7)
  {
    Asks(parts, 0, 7, dow) || (dow == 0 && Asks(parts, 0, 7, 7))
  }

  // Two bare stars leave every day; beside one the other field alone decides;
  // of two restricted day fields one is enough.
  ghost predicate AsksDay(days: seq<Part>, weekdays: seq<Part>, dom: int, dow: int)
    requires FieldOk(days, 1, 31) && FieldOk(weekdays, 0, 7)
  {
    var bare := [Part(Star, None)];
    if days == bare && weekdays == bare then true
    else if weekdays == bare then Asks(days, 1, 31, dom)
    else if days == bare then AsksWeekday(weekdays, dow)
    else Asks(days, 1, 31, dom) || AsksWeekday(weekdays, dow)
  }

  ghost predicate AsksTime(texts: seq<seq<Part>>, t: LocalTime)
    requires FieldsOk(texts)
  {
    && Asks(texts[0], 0, 59, t.minute) && Asks(texts[1], 0, 23, t.hour)
    && Asks(texts[3], 1, 12, t.month) && AsksDay(texts[2], texts[4], t.dom, t.dow)
  }

  // ------------------------------------------------------------------- zones

  datatype LocalTime = LocalTime(year: int, month: int, dom: int, dow: int, hour: int, minute: int)

  // What the engine asks of a JavaScript Date holding t milliseconds since the
  // epoch: its local fields, and where the three combined setters take it.
  datatype Zone = Zone(fields: int -> LocalTime, nextMonth: int -> int, nextDay: int -> int, nextHour: int -> int)

  predicate DayOk(f: Fields, dom: int, dow: int) {
    var domOk, dowOk := dom in f.dom, dow in f.dow;
    if f.domR && f.dowR then domOk || dowOk
    else if f.domR then domOk
    else if f.dowR then dowOk
    else true
  }

  predicate Matches(f: Fields, t: LocalTime) {
    t.month in f.month && DayOk(f, t.dom, t.dow) && t.hour in f.hour && t.minute in f.minute
  }

  predicate AnyHour(f: Fields) {
    forall h :: 0 <= h < 24 ==> h in f.hour
  }

  // Math.floor(ms / 60000) * 60000 + 60000
  function NextWholeMinute(ms: real): int {
    (ms / 60000.0).Floor * 60000 + 60000
  }

  // new Date(ms) drops the fraction towards zero.
  function TimeClip(ms: real): int {
    if ms >= 0.0 then ms.Floor else -((-ms).Floor)
  }

  function CapYear(z: Zone, from: real): int {
    z.fields(TimeClip(from)).year + 5
  }

  datatype Outcome = Found(t: int) | Move(d: int) | Exhausted

  // One turn of the loop of _cronNext().
  function CronStep(z: Zone, f: Fields, from: real, d: int): Outcome {
    var t := z.fields(d);
    if t.year > CapYear(z, from) then Exhausted
    else if t.month !in f.month then Move(z.nextMonth(d))
    else if !DayOk(f, t.dom, t.dow) then Move(z.nextDay(d))
    else if t.hour !in f.hour then Move(z.nextHour(d))
    else if t.minute !in f.minute then Move(d + 60000)
    else if d as real <= from then Move(NextWholeMinute(from))
    else if !AnyHour(f) && RepeatedHour(z, d) then Move(d + 60000)
    else Found(d)
  }

  predicate RepeatedHour(z: Zone, d: int) {
    var e := z.fields(d - 3600000);
    e.hour == z.fields(d).hour && e.minute == z.fields(d).minute
  }

  // n turns of the loop from d.
  function Turns(z: Zone, f: Fields, from: real, d: int, n: nat): Outcome
    decreases n
  {
    if n == 0 then Move(d)
    else match CronStep(z, f, from, d)
      case Move(d') => Turns(z, f, from, d', n - 1)
      case done => done
  }

  // The local time an hour before t reads the same on the clock.
  predicate SameClock(z: Zone, t: int) {
    z.fields(t - 3600000).hour == z.fields(t).hour && z.fields(t - 3600000).minute == z.fields(t).minute
  }

  // In any zone: where a turn of the loop stops.
  lemma FoundExactly(z: Zone, f: Fields, from: real, d: int)
    ensures CronStep(z, f, from, d) == Found(d) <==>
              && z.fields(d).year <= z.fields(TimeClip(from)).year + 5 && from < d as real && Matches(f, z.fields(d))
              && ((forall h :: 0 <= h < 24 ==> h in f.hour) || !SameClock(z, d))
  {
  }

  // In any zone, whatever its setters do: a returned time is after fromMs and
  // matches every field, and with hours that are restricted it is not in an
  // hour that is there for the second time.
  lemma {:induction false} ReturnedTimeMatches(z: Zone, f: Fields, from: real, d: int, n: nat)
    ensures var r := Turns(z, f, from, d, n);
            r.Found? ==>
              from < r.t as real && Matches(f, z.fields(r.t)) &&
              ((forall h :: 0 <= h < 24 ==> h in f.hour) || !SameClock(z, r.t))
    decreases n
  {
    if n > 0 && CronStep(z, f, from, d).Move? {
      ReturnedTimeMatches(z, f, from, CronStep(z, f, from, d).d, n - 1);
    }
  }

  // ------------------------------------------- a zone with a constant offset

  // The wall clock as a number of local minutes since 1970-01-01 00:00.
  function Wall(l: int): LocalTime {
    var day := l / 1440;
    var t := DateOf(day);
    LocalTime(t.y, t.m, t.d, (day + 4) % 7, l / 60 % 24, l % 60)
  }

  function LocalMinute(off: int, t: int): int { t / 60000 + off }
  function Instant(off: int, l: int): int { (l - off) * 60000 }

  function MonthAfter(l: int): int {
    DayNumber(FirstOfNextMonth(DateOf(l / 1440))) * 1440
  }

  function FixedZone(off: int): Zone {
    Zone(t => Wall(LocalMinute(off, t)),
         t => Instant(off, MonthAfter(LocalMinute(off, t))),
         t => Instant(off, (LocalMinute(off, t) / 1440 + 1) * 1440),
         t => Instant(off, (LocalMinute(off, t) / 60 + 1) * 60))
  }

  lemma NextFirst(n: int)
    ensures var t := DateOf(n); DayNumber(FirstOfNextMonth(t)) == n + DaysInMonth(t.y, t.m) - t.d + 1
  {
    var t := DateOf(n);
    var k := DaysInMonth(t.y, t.m) - t.d;
    hide DateOf, DayNumber, DaysInMonth;
    WithinMonth(n, k);
    StepsForward(n + k);
    DayNumberCountsDays(FirstOfNextMonth(t), n + k + 1);
  }

  lemma MonthAfterIs(l: int)
    ensures var t := DateOf(l / 1440);
            MonthAfter(l) == (l / 1440 + DaysInMonth(t.y, t.m) - t.d + 1) * 1440
  {
    hide DateOf, DayNumber, DaysInMonth;
    NextFirst(l / 1440);
  }

  // No minute of [a, b) matches.
  ghost predicate NoneIn(f: Fields, a: int, b: int) {
    forall l :: a <= l < b ==> !Matches(f, Wall(l))
  }

  lemma SameMonth(l: int, m: int)
    requires l <= m < MonthAfter(l)
    ensures Wall(m).month == Wall(l).month
  {
    MonthAfterIs(l);
    hide MonthAfter, DateOf, DaysInMonth;
    var n, k := l / 1440, m / 1440 - l / 1440;
    WithinMonth(n, k);
  }

  lemma SkipMonth(f: Fields, l: int)
    requires Wall(l).month !in f.month
    ensures l < MonthAfter(l) && NoneIn(f, l, MonthAfter(l))
  {
    MonthAfterIs(l);
    forall m | l <= m < MonthAfter(l) ensures !Matches(f, Wall(m)) {
      SameMonth(l, m);
    }
  }

  lemma SkipDay(f: Fields, l: int)
    requires !DayOk(f, Wall(l).dom, Wall(l).dow)
    ensures l < (l / 1440 + 1) * 1440 && NoneIn(f, l, (l / 1440 + 1) * 1440)
  {
    forall m | l <= m < (l / 1440 + 1) * 1440 ensures !Matches(f, Wall(m)) {
      assert m / 1440 == l / 1440;
    }
  }

  lemma SkipHour(f: Fields, l: int)
    requires Wall(l).hour !in f.hour
    ensures l < (l / 60 + 1) * 60 && NoneIn(f, l, (l / 60 + 1) * 60)
  {
    forall m | l <= m < (l / 60 + 1) * 60 ensures !Matches(f, Wall(m)) {
      assert m / 60 == l / 60;
    }
  }

  lemma MinuteBoundary(from: real, k: int)
    ensures from < (k * 60000) as real <==> k * 60000 >= NextWholeMinute(from)
  {
    var m := (from / 60000.0).Floor;
    assert m as real <= from / 60000.0 < (m + 1) as real;
    assert (m * 60000) as real == m as real * 60000.0;
    assert ((m + 1) * 60000) as real == (m + 1) as real * 60000.0;
    assert (k * 60000) as real == k as real * 60000.0;
  }

  lemma YearsOrdered(a: int, b: int)
    requires a <= b
    ensures Wall(a).year <= Wall(b).year
  {
    if a / 1440 < b / 1440 { DatesOrdered(a / 1440, b / 1440); }
  }

  // The last minute of a year, and nothing of that year or before it after it.
  function YearEnd(y: int): int {
    DayCount(Date(y, 12, 31)) * 1440 + 1439
  }

  lemma YearEndBounds(y: int, l: int)
    requires Wall(l).year <= y
    ensures l <= YearEnd(y)
  {
    var n := l / 1440;
    DayCountOfDate(n);
    var t, e := DateOf(n), Date(y, 12, 31);
    if t != e && !Before(t, e) { assert t.y == y && t.m == 12 && t.d <= 31; }
    if t != e { DayCountOrdered(t, e); }
  }

  // What a minute-by-minute search would stop at: a whole minute after fromMs
  // whose local fields match, not past the cap year.
  ghost predicate Candidate(f: Fields, off: int, from: real, cap: int, t: int) {
    && t % 60000 == 0 && from < t as real
    && Matches(f, FixedZone(off).fields(t))
    && FixedZone(off).fields(t).year <= cap
  }

  // The least candidate, or -1 exactly when there is none.
  ghost predicate IsNext(f: Fields, off: int, from: real, cap: int, r: int) {
    && (r == -1 <==> forall t :: !Candidate(f, off, from, cap, t))
    && (r != -1 ==> Candidate(f, off, from, cap, r) && forall t :: Candidate(f, off, from, cap, t) ==> r <= t)
  }

  lemma CandidateOnWall(f: Fields, off: int, from: real, cap: int, t: int)
    requires Candidate(f, off, from, cap, t)
    ensures var m := LocalMinute(off, t);
            && t == Instant(off, m) && Matches(f, Wall(m)) && Wall(m).year <= cap
            && LocalMinute(off, NextWholeMinute(from)) <= m
  {
    MinuteBoundary(from, t / 60000);
  }

  // ---------------------------------------------- the loop on the wall clock

  datatype WallMove = Past | Match | To(l: int)

  function WallStep(f: Fields, cap: int, l: int): WallMove {
    var t := Wall(l);
    if t.year > cap then Past
    else if t.month !in f.month then To(MonthAfter(l))
    else if !DayOk(f, t.dom, t.dow) then To((l / 1440 + 1) * 1440)
    else if t.hour !in f.hour then To((l / 60 + 1) * 60)
    else if t.minute !in f.minute then To(l + 1)
    else Match
  }

  lemma InstantLocal(off: int, l: int)
    ensures LocalMinute(off, Instant(off, l)) == l && Instant(off, l) % 60000 == 0
    ensures LocalMinute(off, Instant(off, l) - 3600000) == l - 60
  {
  }

  // The clocks never go back in such a zone.
  lemma HourNotRepeated(l: int)
    ensures Wall(l - 60).hour != Wall(l).hour
  {
    assert (l - 60) / 60 == l / 60 - 1;
  }

  lemma ZoneAt(off: int, l: int)
    ensures var z, d := FixedZone(off), Instant(off, l);
            && z.fields(d) == Wall(l) && z.fields(d - 3600000) == Wall(l - 60)
            && z.nextMonth(d) == Instant(off, MonthAfter(l))
            && z.nextDay(d) == Instant(off, (l / 1440 + 1) * 1440)
            && z.nextHour(d) == Instant(off, (l / 60 + 1) * 60)
            && d + 60000 == Instant(off, l + 1)
  {
    InstantLocal(off, l);
  }

  // After fromMs, a turn of the loop is a step on the wall clock.
  lemma StepOnWall(f: Fields, off: int, from: real, l: int)
    requires from < Instant(off, l) as real
    ensures CronStep(FixedZone(off), f, from, Instant(off, l)) ==
            match WallStep(f, CapYear(FixedZone(off), from), l)
            case Past => Exhausted
            case Match => Found(Instant(off, l))
            case To(m) => Move(Instant(off, m))
  {
    ZoneAt(off, l);
    HourNotRepeated(l);
    hide Wall, Instant, MonthAfter, LocalMinute, FixedZone;
  }

  // Where it goes, nothing matching was passed over.
  lemma WallStepSkips(f: Fields, cap: int, l: int)
    ensures WallStep(f, cap, l).Match? ==> Matches(f, Wall(l))
    ensures WallStep(f, cap, l).To? ==> l < WallStep(f, cap, l).l && NoneIn(f, l, WallStep(f, cap, l).l)
  {
    var t := Wall(l);
    if t.year > cap {
    } else if t.month !in f.month {
      SkipMonth(f, l);
    } else if !DayOk(f, t.dom, t.dow) {
      SkipDay(f, l);
    } else if t.hour !in f.hour {
      SkipHour(f, l);
    }
  }

  lemma NoneJoin(f: Fields, a: int, b: int, c: int)
    requires NoneIn(f, a, b) && NoneIn(f, b, c)
    ensures NoneIn(f, a, c)
  {
  }

  // Main result: in a zone with a constant whole-minute offset the skipping
  // search ends, and answers what trying every whole minute after fromMs would
  // answer -- the least one that matches, up to the end of the fifth calendar
  // year after fromMs, and -1 exactly when there is none.
  method CronNext(f: Fields, from: real, off: int) returns (r: int)
    ensures IsNext(f, off, from, CapYear(FixedZone(off), from), r)
  {
    var z := FixedZone(off);
    var d := NextWholeMinute(from);
    ghost var cap := CapYear(z, from);
    ghost var l := LocalMinute(off, d);
    SearchStarts(f, from, off);
    hide Wall, DayOk, MonthAfter, Matches, NoneIn, IsNext, CronStep, WallStep, FixedZone, CapYear, YearEnd,
      LocalMinute, NextWholeMinute, Instant;
    while true
      invariant d == Instant(off, l) && from < d as real
      invariant NoneIn(f, LocalMinute(off, NextWholeMinute(from)), l)
      decreases YearEnd(cap) - l
    {
      ghost var m := TurnOnWall(f, off, from, l);
      match CronStep(z, f, from, d) {
        case Exhausted => return -1;
        case Found(t) => return t;
        case Move(e) => d, l := e, m;
      }
    }
  }

  lemma SearchStarts(f: Fields, from: real, off: int)
    ensures var d := NextWholeMinute(from); var l := LocalMinute(off, d);
            d == Instant(off, l) && from < d as real && NoneIn(f, l, l)
  {
    MinuteBoundary(from, NextWholeMinute(from) / 60000);
    hide Matches;
  }

  // What a turn of the loop gives: the answer, or the next minute to look at.
  lemma TurnOnWall(f: Fields, off: int, from: real, l: int) returns (m: int)
    requires from < Instant(off, l) as real && NoneIn(f, LocalMinute(off, NextWholeMinute(from)), l)
    ensures var cap := CapYear(FixedZone(off), from);
            match CronStep(FixedZone(off), f, from, Instant(off, l))
            case Exhausted => IsNext(f, off, from, cap, -1)
            case Found(t) => IsNext(f, off, from, cap, t)
            case Move(e) =>
              && e == Instant(off, m) && from < e as real && l < m && l <= YearEnd(cap)
              && NoneIn(f, LocalMinute(off, NextWholeMinute(from)), m)
  {
    hide Wall, DayOk, MonthAfter, Matches, NoneIn, IsNext, CronStep, WallStep, FixedZone, CapYear, YearEnd,
      LocalMinute, NextWholeMinute, Instant;
    var l0, cap := LocalMinute(off, NextWholeMinute(from)), CapYear(FixedZone(off), from);
    m := l;
    StepOnWall(f, off, from, l);
    WallStepSkips(f, cap, l);
    WallStepYear(f, cap, l);
    match WallStep(f, cap, l) {
      case Past => NothingLeft(f, off, from, cap, l);
      case Match => LeastFound(f, off, from, cap, l);
      case To(to) =>
        m := to;
        NoneJoin(f, l0, l, m);
        InstantGrows(off, l, m);
    }
  }

  lemma InstantGrows(off: int, l: int, m: int)
    requires l < m
    ensures Instant(off, l) < Instant(off, m)
  {
  }

  lemma WallStepYear(f: Fields, cap: int, l: int)
    ensures if WallStep(f, cap, l).Past? then Wall(l).year > cap else Wall(l).year <= cap && l <= YearEnd(cap)
  {
    if Wall(l).year <= cap { YearEndBounds(cap, l); }
    hide Wall, YearEnd;
  }

  lemma NothingLeft(f: Fields, off: int, from: real, cap: int, l: int)
    requires NoneIn(f, LocalMinute(off, NextWholeMinute(from)), l) && Wall(l).year > cap
    ensures IsNext(f, off, from, cap, -1)
  {
    forall t ensures !Candidate(f, off, from, cap, t) {
      if Candidate(f, off, from, cap, t) {
        CandidateOnWall(f, off, from, cap, t);
        var m := LocalMinute(off, t);
        if m >= l { YearsOrdered(l, m); }
      }
    }
  }

  lemma LeastFound(f: Fields, off: int, from: real, cap: int, l: int)
    requires NoneIn(f, LocalMinute(off, NextWholeMinute(from)), l)
    requires from < Instant(off, l) as real && Matches(f, Wall(l)) && Wall(l).year <= cap
    ensures IsNext(f, off, from, cap, Instant(off, l))
  {
    InstantLocal(off, l);
    assert Candidate(f, off, from, cap, Instant(off, l));
    forall t | Candidate(f, off, from, cap, t) ensures Instant(off, l) <= t {
      CandidateOnWall(f, off, from, cap, t);
      InstantLocal(off, LocalMinute(off, t));
    }
  }

  // ------------------------------------------------- the answer, by the text

  // The wall clock, field by field: so many days from 1970-01-01, a Thursday,
  // then hours and minutes.
  lemma WallIs(l: int)
    ensures var t := Wall(l); var date := Date(t.year, t.month, t.dom);
            && Valid(date) && 0 <= t.hour < 24 && 0 <= t.minute < 60 && 0 <= t.dow < 7
            && l == DayNumber(date) * 1440 + t.hour * 60 + t.minute
            && (DayNumber(date) == 0 ==> t.dow == 4) && Wall(l + 1440).dow == (t.dow + 1) % 7
  {
    hide DayNumber, DateOf, Valid;
    DayNumberCountsDays(DateOf(l / 1440), l / 1440);
    Clock(l);
    Weekdays(l / 1440);
    assert DateOf(l / 1440) == Date(Wall(l).year, Wall(l).month, Wall(l).dom);
    assert Wall(l + 1440).dow == (l / 1440 + 1 + 4) % 7;
  }

  lemma Clock(l: int)
    ensures l == l / 1440 * 1440 + l / 60 % 24 * 60 + l % 60 && (l + 1440) / 1440 == l / 1440 + 1
    ensures 0 <= l / 60 % 24 < 24
  {
    assert l / 60 == l / 1440 * 24 + l / 60 % 24;
  }

  lemma Weekdays(day: int)
    ensures (day + 1 + 4) % 7 == ((day + 4) % 7 + 1) % 7
  {
  }

  // Local minute m of a zone that is off minutes ahead is asked for by the
  // text, begins after fromMs and is not past the year cap.
  ghost predicate Due(texts: seq<seq<Part>>, off: int, from: real, cap: int, m: int)
    requires FieldsOk(texts)
  {
    AsksTime(texts, Wall(m)) && from < ((m - off) * 60000) as real && Wall(m).year <= cap
  }

  // The first such minute's instant, or -1 exactly when there is none.
  ghost predicate IsNextDue(texts: seq<seq<Part>>, off: int, from: real, cap: int, r: int)
    requires FieldsOk(texts)
  {
    if r == -1 then forall m :: !Due(texts, off, from, cap, m)
    else exists m :: r == (m - off) * 60000 && Due(texts, off, from, cap, m)
                     && forall n :: Due(texts, off, from, cap, n) ==> m <= n
  }

  lemma MatchesAsks(texts: seq<seq<Part>>, f: Fields, t: LocalTime)
    requires FieldsOk(texts) && MeansFields(texts, f) && t.dow != 7
    ensures Matches(f, t) <==> AsksTime(texts, t)
  {
    SelectedAsks(texts[0], 0, 59, t.minute);
    SelectedAsks(texts[1], 0, 23, t.hour);
    SelectedAsks(texts[2], 1, 31, t.dom);
    SelectedAsks(texts[3], 1, 12, t.month);
    SelectedAsks(texts[4], 0, 7, t.dow);
    SelectedAsks(texts[4], 0, 7, 7);
    hide Selected, Asks, FieldOk;
  }

  lemma AsInstant(off: int, l: int)
    ensures Instant(off, l) == (l - off) * 60000
  {
  }

  lemma CandidateDue(texts: seq<seq<Part>>, f: Fields, off: int, from: real, cap: int, m: int)
    requires FieldsOk(texts) && MeansFields(texts, f)
    ensures Candidate(f, off, from, cap, (m - off) * 60000) <==> Due(texts, off, from, cap, m)
  {
    MatchesAsks(texts, f, Wall(m));
    hide Matches, AsksTime, FieldsOk, MeansFields, Wall, Instant;
    InstantLocal(off, m);
    assert FixedZone(off).fields((m - off) * 60000) == Wall(m) by { ZoneAt(off, m); AsInstant(off, m); }
  }

  lemma NextIsDue(texts: seq<seq<Part>>, f: Fields, off: int, from: real, cap: int, r: int)
    requires FieldsOk(texts) && MeansFields(texts, f) && IsNext(f, off, from, cap, r)
    ensures IsNextDue(texts, off, from, cap, r)
  {
    forall m | Due(texts, off, from, cap, m) ensures Candidate(f, off, from, cap, (m - off) * 60000) {
      CandidateDue(texts, f, off, from, cap, m);
    }
    hide FieldsOk, MeansFields;
    if r != -1 {
      var m := r / 60000 + off;
      assert r == (m - off) * 60000;
      CandidateDue(texts, f, off, from, cap, m);
      hide Due;
      assert Due(texts, off, from, cap, m);
      forall n | Due(texts, off, from, cap, n) ensures m <= n {
        assert Candidate(f, off, from, cap, (n - off) * 60000);
      }
    }
  }

  // Main result: what CronCondition makes of a text and a time. A text with
  // good fields leads to the first whole minute after fromMs that the text asks
  // for, up to the end of the fifth calendar year after fromMs in local time.
  method NextOf(texts: seq<seq<Part>>, from: real, off: int) returns (good: bool, r: int)
    ensures good <==> FieldsOk(texts)
    ensures good ==> IsNextDue(texts, off, from, Wall(TimeClip(from) / 60000 + off).year + 5, r)
  {
    CapIs(off, from);
    hide FieldsOk, MeansFields, IsNext, IsNextDue, Wall, CapYear, FixedZone, TimeClip;
    var parsed := ParseCron(texts);
    if parsed == BadCron { return false, -1; }
    good := true;
    r := CronNext(parsed.f, from, off);
    NextIsDue(texts, parsed.f, off, from, CapYear(FixedZone(off), from), r);
  }

  lemma CapIs(off: int, from: real)
    ensures CapYear(FixedZone(off), from) == Wall(TimeClip(from) / 60000 + off).year + 5
  {
    hide Wall, TimeClip;
  }
}
