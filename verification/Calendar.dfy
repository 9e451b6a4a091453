/** Calendar days counted from 1970-01-01, both ways, and runs of consecutive days. */
module Calendar {

  /** Rust's integer division, which cuts towards zero. */
  function Div(a: int, b: int): int
    requires b > 0
  {
    if a >= 0 then a / b else -((-a) / b)
  }

  datatype Date = Date(y: int, m: int, d: int)

  function DaysFromCivil(c: Date): int {
    var y := if c.m <= 2 then c.y - 1 else c.y;
    var era := Div(if y >= 0 then y else y - 399, 400);
    var yoe := y - era * 400;
    var doy := Div(153 * (if c.m > 2 then c.m - 3 else c.m + 9) + 2, 5) + c.d - 1;
    var doe := yoe * 365 + Div(yoe, 4) - Div(yoe, 100) + doy;
    era * 146097 + doe - 719468
  }

  function CivilFromDays(day: int): Date {
    var z := day + 719468;
    var era := Div(if z >= 0 then z else z - 146096, 146097);
    var doe := z - era * 146097;
    var yoe := Div(doe - Div(doe, 1460) + Div(doe, 36524) - Div(doe, 146096), 365);
    var doy := doe - (365 * yoe + Div(yoe, 4) - Div(yoe, 100));
    var mp := Div(5 * doy + 2, 153);
    var d := doy - Div(153 * mp + 2, 5) + 1;
    var m := if mp < 10 then mp + 3 else mp - 9;
    Date(yoe + era * 400 + (if m <= 2 then 1 else 0), m, d)
  }

  // ----- the Gregorian calendar -----

  /** RFC 3339, Appendix C. */
  predicate Leap(y: int) { y % 4 == 0 && (y % 100 != 0 || y % 400 == 0) }

  function MonthLength(y: int, m: int): int {
    if m == 2 then (if Leap(y) then 29 else 28)
    else if m == 4 || m == 6 || m == 9 || m == 11 then 30
    else 31
  }

  predicate Valid(c: Date) { 1 <= c.m <= 12 && 1 <= c.d <= MonthLength(c.y, c.m) }

  function NextDay(c: Date): Date {
    if c.d < MonthLength(c.y, c.m) then Date(c.y, c.m, c.d + 1)
    else if c.m < 12 then Date(c.y, c.m + 1, 1)
    else Date(c.y + 1, 1, 1)
  }

  function DayBefore(c: Date): Date {
    if c.d > 1 then Date(c.y, c.m, c.d - 1)
    else if c.m > 1 then Date(c.y, c.m - 1, MonthLength(c.y, c.m - 1))
    else Date(c.y - 1, 12, 31)
  }

  predicate Earlier(a: Date, b: Date) {
    a.y < b.y || (a.y == b.y && (a.m < b.m || (a.m == b.m && a.d < b.d)))
  }

  // ----- years that begin in March -----

  /** The days before the March of year `y`, of all the years since year 0. */
  function YearStart(y: int): int { 365 * y + y / 4 - y / 100 + y / 400 }

  function MarchYear(c: Date): int { if c.m <= 2 then c.y - 1 else c.y }

  /** The months from March on. */
  function MarchMonth(m: int): int { if m > 2 then m - 3 else m + 9 }

  function MonthStart(mp: int): int { (153 * mp + 2) / 5 }

  function DayOfYear(c: Date): int { MonthStart(MarchMonth(c.m)) + c.d - 1 }

  lemma DivFloors(a: int)
    ensures Div(if a >= 0 then a else a - 399, 400) == a / 400
    ensures Div(if a >= 0 then a else a - 146096, 146097) == a / 146097
  {
  }

  lemma DaysAre(c: Date)
    requires 1 <= c.m <= 12
    ensures DaysFromCivil(c) == YearStart(MarchYear(c)) + DayOfYear(c) - 719468
  {
    var y := MarchYear(c);
    DivFloors(y);
    var era := y / 400;
    var yoe := y - era * 400;
    assert 0 <= yoe < 400;
    assert yoe / 4 == y / 4 - 100 * era;
    assert yoe / 100 == y / 100 - 4 * era;
  }

  lemma YearGrows(y: int)
    ensures YearStart(y + 1) - YearStart(y) == if Leap(y + 1) then 366 else 365
  {
    Quarters(y);
    Centuries(y);
    assert (y + 1) / 400 - y / 400 == if (y + 1) % 400 == 0 then 1 else 0;
    assert (y + 1) % 400 == 0 ==> (y + 1) % 100 == 0;
    assert (y + 1) % 100 == 0 ==> (y + 1) % 4 == 0;
  }

  lemma Quarters(y: int)
    ensures (y + 1) / 4 - y / 4 == if (y + 1) % 4 == 0 then 1 else 0
  {
  }

  lemma Centuries(y: int)
    ensures (y + 1) / 100 - y / 100 == if (y + 1) % 100 == 0 then 1 else 0
  {
  }

  lemma {:induction false} YearsGrow(y: int, z: int)
    requires y <= z
    ensures YearStart(y) <= YearStart(z)
    decreases z - y
  {
    hide YearStart;
    if y < z {
      YearsGrow(y, z - 1);
      YearGrows(z - 1);
    }
  }

  lemma MonthsFit(c: Date)
    requires Valid(c)
    ensures 0 <= MarchMonth(c.m) < 12
    ensures 0 <= MonthStart(MarchMonth(c.m)) <= DayOfYear(c)
    ensures MarchMonth(c.m) < 11 ==> DayOfYear(c) < MonthStart(MarchMonth(c.m) + 1)
    ensures DayOfYear(c) < if Leap(MarchYear(c) + 1) then 366 else 365
  {
  }

  /** The day after has the number after. */
  lemma NextDayIsOneMore(c: Date)
    requires Valid(c)
    ensures Valid(NextDay(c)) && DaysFromCivil(NextDay(c)) == DaysFromCivil(c) + 1
  {
    hide YearStart, DaysFromCivil;
    DaysAre(c);
    DaysAre(NextDay(c));
    YearGrows(c.y - 1);
  }

  lemma DayBeforeIsOneLess(c: Date)
    requires Valid(c)
    ensures Valid(DayBefore(c)) && NextDay(DayBefore(c)) == c && DaysFromCivil(DayBefore(c)) == DaysFromCivil(c) - 1
  {
    hide DaysFromCivil;
    NextDayIsOneMore(DayBefore(c));
  }

  /** Dates and their numbers come in the same order. */
  lemma EarlierIffLess(a: Date, b: Date)
    requires Valid(a) && Valid(b)
    ensures Earlier(a, b) <==> DaysFromCivil(a) < DaysFromCivil(b)
  {
    hide DaysFromCivil;
    if Earlier(a, b) {
      EarlierIsLess(a, b);
    } else if a != b {
      EarlierIsLess(b, a);
    }
  }

  lemma EarlierIsLess(a: Date, b: Date)
    requires Valid(a) && Valid(b) && Earlier(a, b)
    ensures DaysFromCivil(a) < DaysFromCivil(b)
  {
    hide YearStart, DaysFromCivil;
    DaysAre(a);
    DaysAre(b);
    MonthsFit(a);
    MonthsFit(b);
    if MarchYear(a) < MarchYear(b) {
      YearGrows(MarchYear(a));
      YearsGrow(MarchYear(a) + 1, MarchYear(b));
    } else {
      assert MarchMonth(a.m) <= MarchMonth(b.m);
    }
  }

  // ----- and back -----

  /** Within 400 years, the year is found from the day. */
  lemma YearOfEra(yoe: int, doy: int)
    requires 0 <= yoe < 400 && 0 <= doy < if Leap(yoe + 1) then 366 else 365
    ensures var doe := 365 * yoe + yoe / 4 - yoe / 100 + doy;
      0 <= doe < 146097 && (doe - doe / 1460 + doe / 36524 - doe / 146096) / 365 == yoe
  {
    var c, a, b := yoe / 100, yoe % 100 / 4, yoe % 4;
    assert yoe == 100 * c + 4 * a + b && yoe / 4 == 25 * c + a;
    assert 0 <= c <= 3 && 0 <= a <= 24 && 0 <= b <= 3;
    var doe := 36524 * c + 1461 * a + 365 * b + doy;
    assert doe == 365 * yoe + yoe / 4 - yoe / 100 + doy;
    LongYear(yoe, c, a, b, doy);
    YearParts(c, a, b, doy);
  }

  lemma LongYear(yoe: int, c: int, a: int, b: int, doy: int)
    requires 0 <= c <= 3 && 0 <= a <= 24 && 0 <= b <= 3 && yoe == 100 * c + 4 * a + b
    requires 0 <= doy < if Leap(yoe + 1) then 366 else 365
    ensures doy == 365 ==> b == 3 && (a < 24 || c == 3)
  {
  }

  lemma YearParts(c: int, a: int, b: int, doy: int)
    requires 0 <= c <= 3 && 0 <= a <= 24 && 0 <= b <= 3 && 0 <= doy <= 365
    requires doy == 365 ==> b == 3 && (a < 24 || c == 3)
    ensures var doe := 36524 * c + 1461 * a + 365 * b + doy;
      0 <= doe < 146097 && (doe - doe / 1460 + doe / 36524 - doe / 146096) / 365 == 100 * c + 4 * a + b
  {
    var rest := 1461 * a + 365 * b + doy;
    var doe := 36524 * c + rest;
    assert 0 <= rest <= 36524;
    assert rest == 36524 ==> c == 3;
    assert doe / 36524 - doe / 146096 == c;
    var over := 24 * c + a + 365 * b + doy;
    assert doe == 1460 * (25 * c + a) + over && 0 <= over < 2920;
    var e := if over >= 1460 then 1 else 0;
    assert doe / 1460 == 25 * c + a + e;
    assert doe - doe / 1460 + c == 365 * (100 * c + 4 * a + b) + (doy - e);
    assert 0 <= doy - e < 365;
  }

  lemma MonthOfYear(mp: int, doy: int)
    requires 0 <= mp < 12 && MonthStart(mp) <= doy <= 365 && (mp < 11 ==> doy < MonthStart(mp + 1))
    ensures (5 * doy + 2) / 153 == mp
  {
  }

  lemma EraFound(c: Date)
    requires Valid(c)
    ensures var y := MarchYear(c);
            var era, yoe := y / 400, y % 400;
            var doe := 365 * yoe + yoe / 4 - yoe / 100 + DayOfYear(c);
            var z := DaysFromCivil(c) + 719468;
      0 <= doe < 146097 ==> Div(if z >= 0 then z else z - 146096, 146097) == era && doe == z - 146097 * era
  {
    hide YearStart, DaysFromCivil, DayOfYear, Div, Valid, MonthLength;
    var y := MarchYear(c);
    var era, yoe := y / 400, y % 400;
    var doe := 365 * yoe + yoe / 4 - yoe / 100 + DayOfYear(c);
    ValidMonth(c);
    DaysAre(c);
    EraStart(y);
    DivFloors(146097 * era + doe);
    if 0 <= doe < 146097 { EraOf(146097 * era + doe, era, doe); }
  }

  lemma ValidMonth(c: Date)
    requires Valid(c)
    ensures 1 <= c.m <= 12
  {
  }

  /** Every date comes back from its number. */
  lemma DateReadsBack(c: Date)
    requires Valid(c)
    ensures CivilFromDays(DaysFromCivil(c)) == c
  {
    hide DaysFromCivil, CivilFromDays, Div, YearStart, Leap, Valid, MonthStart;
    var y, doy := MarchYear(c), DayOfYear(c);
    var era, yoe := y / 400, y % 400;
    ValidMonth(c);
    MonthsFit(c);
    SameLeap(yoe + 1, era);
    assert yoe + 1 + 400 * era == y + 1;
    YearFound(yoe, doy);
    EraFound(c);
    MonthFound(MarchMonth(c.m), doy);
    FromParts(DaysFromCivil(c), era, 365 * yoe + yoe / 4 - yoe / 100 + doy, yoe, doy, MarchMonth(c.m));
  }

  lemma SameLeap(y: int, era: int)
    ensures Leap(y + 400 * era) <==> Leap(y)
  {
    Shifted(y, era);
    assert 400 * era == 100 * (4 * era) == 4 * (100 * era);
    ShiftedByCenturies(y, 4 * era);
    ShiftedByQuarters(y, 100 * era);
  }

  lemma Shifted(y: int, k: int)
    ensures (y + 400 * k) % 400 == y % 400
  {
  }

  lemma ShiftedByCenturies(y: int, k: int)
    ensures (y + 100 * k) % 100 == y % 100
  {
  }

  lemma ShiftedByQuarters(y: int, k: int)
    ensures (y + 4 * k) % 4 == y % 4
  {
  }

  lemma EraStart(y: int)
    ensures var era, yoe := y / 400, y % 400;
      YearStart(y) == 146097 * era + 365 * yoe + yoe / 4 - yoe / 100
  {
    var era, yoe := y / 400, y % 400;
    assert y == 400 * era + yoe;
    assert y / 4 == 100 * era + yoe / 4;
    assert y / 100 == 4 * era + yoe / 100;
  }

  lemma EraOf(z: int, era: int, doe: int)
    requires z == 146097 * era + doe && 0 <= doe < 146097
    ensures z / 146097 == era
  {
  }

  lemma YearFound(yoe: int, doy: int)
    requires 0 <= yoe < 400 && 0 <= doy < if Leap(yoe + 1) then 366 else 365
    ensures var doe := 365 * yoe + yoe / 4 - yoe / 100 + doy;
      && 0 <= doe < 146097
      && Div(doe - Div(doe, 1460) + Div(doe, 36524) - Div(doe, 146096), 365) == yoe
      && Div(yoe, 4) == yoe / 4 && Div(yoe, 100) == yoe / 100
  {
    var doe := 365 * yoe + yoe / 4 - yoe / 100 + doy;
    YearOfEra(yoe, doy);
    DivIs(doe, 1460);
    DivIs(doe, 36524);
    DivIs(doe, 146096);
    DivIs(doe - doe / 1460 + doe / 36524 - doe / 146096, 365);
    DivIs(yoe, 4);
    DivIs(yoe, 100);
    hide Div, Leap;
  }

  lemma MonthFound(mp: int, doy: int)
    requires 0 <= mp < 12 && MonthStart(mp) <= doy <= 365 && (mp < 11 ==> doy < MonthStart(mp + 1))
    ensures Div(5 * doy + 2, 153) == mp && Div(153 * mp + 2, 5) == MonthStart(mp)
  {
    MonthOfYear(mp, doy);
  }

  lemma FromParts(day: int, era: int, doe: int, yoe: int, doy: int, mp: int)
    requires var z := day + 719468; Div(if z >= 0 then z else z - 146096, 146097) == era && doe == z - 146097 * era
    requires Div(doe - Div(doe, 1460) + Div(doe, 36524) - Div(doe, 146096), 365) == yoe
    requires doy == doe - (365 * yoe + Div(yoe, 4) - Div(yoe, 100))
    requires 0 <= mp < 12 && Div(5 * doy + 2, 153) == mp && Div(153 * mp + 2, 5) == MonthStart(mp)
    ensures CivilFromDays(day) ==
      Date(yoe + 400 * era + (if mp < 10 then 0 else 1), if mp < 10 then mp + 3 else mp - 9, doy - MonthStart(mp) + 1)
  {
    hide Div, MonthStart;
  }

  lemma DivIs(a: int, b: int)
    requires b > 0 && a >= 0
    ensures Div(a, b) == a / b
  {
  }

  /** Some date has that number: the day after that of the number before, or before that of the one after. */
  lemma {:induction false} DateOf(day: int) returns (c: Date)
    ensures Valid(c) && DaysFromCivil(c) == day
    decreases if day >= 0 then day else -day
  {
    hide DaysFromCivil, YearStart;
    if day == 0 {
      c := Date(1970, 1, 1);
      EpochIsZero();
    } else if day > 0 {
      var before := DateOf(day - 1);
      NextDayIsOneMore(before);
      c := NextDay(before);
    } else {
      var after := DateOf(day + 1);
      DayBeforeIsOneLess(after);
      c := DayBefore(after);
    }
  }

  lemma EpochIsZero()
    ensures DaysFromCivil(Date(1970, 1, 1)) == 0
  {
  }

  /** Every number is that of the date it comes back as. */
  lemma DayReadsBack(day: int)
    ensures Valid(CivilFromDays(day)) && DaysFromCivil(CivilFromDays(day)) == day
  {
    hide DaysFromCivil, CivilFromDays;
    var c := DateOf(day);
    DateReadsBack(c);
  }

  // ----- runs of days -----

  /** The days from the i-th up to before the j-th follow one another. */
  predicate Consecutive(days: seq<int>, i: nat, j: nat)
    requires i <= j <= |days|
  {
    forall k :: i < k < j ==> days[k] == days[k - 1] + 1
  }

  predicate RunFrom(days: seq<int>, i: nat, n: nat) { i + n <= |days| && Consecutive(days, i, i + n) }

  /** How long the run of days is that ends with the last of the first `n`. */
  predicate RunEnds(days: seq<int>, n: nat, run: nat)
    requires n <= |days|
  {
    && run <= n && (n > 0 ==> run > 0)
    && Consecutive(days, n - run, n)
    && (0 < run < n ==> days[n - run] != days[n - run - 1] + 1)
  }

  /** The length of the longest run of days, and of the one still going on today or yesterday. */
  method Streaks(days: seq<int>, today: int) returns (current: nat, best: nat)
    ensures exists i :: 0 <= i && RunFrom(days, i, best)
    ensures forall i, j :: 0 <= i <= j <= |days| && Consecutive(days, i, j) ==> j - i <= best
    ensures if days != [] && days[|days| - 1] >= today - 1 then RunEnds(days, |days|, current) else current == 0
  {
    hide RunEnds, Consecutive, RunFrom;
    NoRunYet(days);
    best := 0;
    var run: nat := 0;
    ghost var at: nat := 0;
    var n := 0;
    while n < |days|
      invariant 0 <= n <= |days|
      invariant RunEnds(days, n, run)
      invariant at + best <= n && RunFrom(days, at, best)
      invariant run <= best
      invariant forall i, j :: 0 <= i <= j <= n && Consecutive(days, i, j) ==> j - i <= best
    {
      ghost var was := run;
      run := if n > 0 && days[n] == days[n - 1] + 1 then run + 1 else 1;
      RunGoesOn(days, n, was, run);
      if run > best {
        best := run;
        at := n + 1 - run;
      }
      NoneLonger(days, n + 1, run, best);
      n := n + 1;
    }
    current := 0;
    if days != [] && days[|days| - 1] >= today - 1 {
      current := 1;
      LastAlone(days);
      var due := days[|days| - 1] - 1;
      while current < |days| && days[|days| - 1 - current] == due
        invariant 1 <= current <= |days|
        invariant Consecutive(days, |days| - current, |days|)
        invariant due == days[|days| - current] - 1
      {
        RunBack(days, current);
        due := due - 1;
        current := current + 1;
      }
      RunStops(days, current);
    }
  }

  lemma NoRunYet(days: seq<int>)
    ensures RunEnds(days, 0, 0) && RunFrom(days, 0, 0) && Consecutive(days, 0, 0)
  {
  }

  lemma LastAlone(days: seq<int>)
    requires days != []
    ensures Consecutive(days, |days| - 1, |days|)
  {
  }

  lemma RunBack(days: seq<int>, n: nat)
    requires 1 <= n < |days| && Consecutive(days, |days| - n, |days|) && days[|days| - 1 - n] == days[|days| - n] - 1
    ensures Consecutive(days, |days| - n - 1, |days|)
  {
  }

  lemma RunStops(days: seq<int>, n: nat)
    requires 1 <= n <= |days| && Consecutive(days, |days| - n, |days|)
    requires n < |days| ==> days[|days| - 1 - n] != days[|days| - n] - 1
    ensures RunEnds(days, |days|, n)
  {
  }

  lemma RunGoesOn(days: seq<int>, n: nat, was: nat, run: nat)
    requires n < |days| && RunEnds(days, n, was)
    requires run == if n > 0 && days[n] == days[n - 1] + 1 then was + 1 else 1
    ensures RunEnds(days, n + 1, run) && run <= n + 1 && RunFrom(days, n + 1 - run, run)
  {
  }

  lemma NoneLonger(days: seq<int>, n: nat, run: nat, best: nat)
    requires 0 < n <= |days| && RunEnds(days, n, run) && run <= best
    requires forall i, j :: 0 <= i <= j <= n - 1 && Consecutive(days, i, j) ==> j - i <= best
    ensures forall i, j :: 0 <= i <= j <= n && Consecutive(days, i, j) ==> j - i <= best
  {
  }
}
