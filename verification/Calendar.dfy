/**
 Month arithmetic done two ways: by days on the Gregorian calendar's day numbers, and on (year, month) pairs.

 Day numbers are those of Python's `date.toordinal`. `Index` numbers the months one after the other.
 */
module Calendar {
  import opened Common

  datatype Date = Date(year: int, month: int, day: int)

  datatype Month = Month(year: int, month: int) {
    predicate Real() {
      year >= 1 && 1 <= month <= 12
    }

    function Index(): int {
      12 * year + month - 1
    }

    function Next(): Month {
      if month == 12 then Month(year + 1, 1) else Month(year, month + 1)
    }

    function Previous(): Month {
      if month == 1 then Month(year - 1, 12) else Month(year, month - 1)
    }

    function First(): Date {
      Date(year, month, 1)
    }
  }

  const LAST_YEAR := 9999

  /** `date.max.toordinal()`. */
  const MAX_ORDINAL := 3652059

  predicate Leap(year: int) {
    year % 4 == 0 && (year % 100 != 0 || year % 400 == 0)
  }

  function Days(m: Month): (r: int)
    ensures 28 <= r <= 31
  {
    if m.month == 2 then (if Leap(m.year) then 29 else 28)
    else if m.month == 4 || m.month == 6 || m.month == 9 || m.month == 11 then 30
    else 31
  }

  function MonthOf(d: Date): Month {
    Month(d.year, d.month)
  }

  predicate Valid(d: Date) {
    MonthOf(d).Real() && d.year <= LAST_YEAR && 1 <= d.day <= Days(MonthOf(d))
  }

  function DaysInYear(year: int): int {
    if Leap(year) then 366 else 365
  }

  /** Days before a year. */
  function YearBase(year: int): (r: int)
    ensures r >= 0
    decreases year
  {
    if year <= 1 then 0 else YearBase(year - 1) + DaysInYear(year - 1)
  }

  /** Days of a year before one of its months. */
  function DaysBefore(m: Month): (r: int)
    ensures r >= 0
  {
    var feb := Days(Month(m.year, 2));
    if m.month <= 1 then 0
    else if m.month == 2 then 31
    else if m.month == 3 then 31 + feb
    else if m.month == 4 then 62 + feb
    else if m.month == 5 then 92 + feb
    else if m.month == 6 then 123 + feb
    else if m.month == 7 then 153 + feb
    else if m.month == 8 then 184 + feb
    else if m.month == 9 then 215 + feb
    else if m.month == 10 then 245 + feb
    else if m.month == 11 then 276 + feb
    else 306 + feb
  }

  /** The day number of the first of a month, counting from 0001-01-01 as 1. */
  function Start(m: Month): (r: int)
    ensures r >= 1
  {
    YearBase(m.year) + DaysBefore(m) + 1
  }

  lemma StartOfNext(m: Month)
    requires m.Real()
    ensures m.Next().Real() && Start(m.Next()) == Start(m) + Days(m) && m.Next().Index() == m.Index() + 1
  {
    if m.month == 12 {
      YearEnds(m.year);
    } else {
      MonthEnds(m);
    }
  }

  lemma YearEnds(year: int)
    requires year >= 1
    ensures Start(Month(year + 1, 1)) == Start(Month(year, 12)) + 31
  {
  }

  lemma MonthEnds(m: Month)
    requires 1 <= m.month < 12
    ensures Start(Month(m.year, m.month + 1)) == Start(m) + Days(m)
  {
  }

  lemma {:induction false} StartRises(a: Month, b: Month)
    requires a.Real() && b.Real() && a.Index() < b.Index()
    ensures Start(a) + Days(a) <= Start(b)
    decreases b.Index()
  {
    var p := b.Previous();
    assert p.Next() == b;
    StartOfNext(p);
    if a.Index() < p.Index() {
      StartRises(a, p);
    } else {
      assert a == p;
    }
  }

  // ----- The day numbers are Gregorian -----------------------------------------------------------

  lemma QuotientStep(y: int)
    ensures y / 4 - (y - 1) / 4 == if y % 4 == 0 then 1 else 0
    ensures y / 100 - (y - 1) / 100 == if y % 100 == 0 then 1 else 0
    ensures y / 400 - (y - 1) / 400 == if y % 400 == 0 then 1 else 0
  {
  }

  lemma CenturyRules(y: int)
    ensures y % 400 == 0 ==> y % 100 == 0
    ensures y % 100 == 0 ==> y % 4 == 0
  {
  }

  function LeapDaysThrough(year: int): int {
    year / 4 - year / 100 + year / 400
  }

  lemma LeapDaysStep(year: int)
    ensures LeapDaysThrough(year) - LeapDaysThrough(year - 1) == if Leap(year) then 1 else 0
  {
    QuotientStep(year);
    CenturyRules(year);
  }

  /** 365 days a year, and a leap day by the 4, 100 and 400 rules. */
  lemma {:induction false} YearStart(year: int)
    requires year >= 1
    ensures YearBase(year) == (year - 1) * 365 + LeapDaysThrough(year - 1)
  {
    if year > 1 {
      YearStart(year - 1);
      LeapDaysStep(year - 1);
    }
  }

  lemma CalendarEnd(year: int)
    requires year == LAST_YEAR + 1
    ensures Start(Month(year, 1)) == MAX_ORDINAL + 1
  {
    YearStart(year);
    assert LeapDaysThrough(year - 1) == 2424;
  }

  /** A month starts within the range of day numbers exactly when its year is in range. */
  lemma WithinCalendar(m: Month)
    requires m.Real()
    ensures Start(m) <= MAX_ORDINAL <==> m.year <= LAST_YEAR
    ensures m.year <= LAST_YEAR ==> Start(m) + Days(m) <= MAX_ORDINAL + 1
  {
    var year := LAST_YEAR + 1;
    CalendarEnd(year);
    var end := Month(year, 1);
    if m.Index() < end.Index() {
      StartRises(m, end);
    } else if m.Index() > end.Index() {
      StartRises(end, m);
    }
  }

  // ----- Dates and day numbers -------------------------------------------------------------------

  function Ordinal(d: Date): int
    requires Valid(d)
  {
    Start(MonthOf(d)) + d.day - 1
  }

  /** Different dates have different day numbers. */
  lemma OrdinalIsInjective(c: Date, d: Date)
    requires Valid(c) && Valid(d) && Ordinal(c) == Ordinal(d)
    ensures c == d
  {
    var a, b := MonthOf(c), MonthOf(d);
    if a.Index() < b.Index() {
      StartRises(a, b);
    } else if b.Index() < a.Index() {
      StartRises(b, a);
    } else {
      assert a == b;
    }
  }

  predicate InRange(m: Month) {
    m.Real() && m.year <= LAST_YEAR
  }

  function LastOf(m: Month): Date {
    Date(m.year, m.month, Days(m))
  }

  /** `date + timedelta(days=n)`, carrying into neighbouring months; None is OverflowError. */
  function AddDays(d: Date, n: int): Option<Date>
    requires Valid(d)
    decreases if n < 0 then -n else n
  {
    var m := MonthOf(d);
    if d.day + n > Days(m) then
      if !InRange(m.Next()) then None else AddDays(m.Next().First(), n - (Days(m) - d.day + 1))
    else if d.day + n < 1 then
      if !InRange(m.Previous()) then None
      else AddDays(LastOf(m.Previous()), n + d.day)
    else Some(d.(day := d.day + n))
  }

  lemma CarryForward(d: Date)
    requires Valid(d)
    ensures var m := MonthOf(d);
            var past := Ordinal(d) + (Days(m) - d.day + 1);
            if InRange(m.Next()) then Valid(m.Next().First()) && Ordinal(m.Next().First()) == past
            else past == MAX_ORDINAL + 1
  {
    var m := MonthOf(d);
    StartOfNext(m);
    if !InRange(m.Next()) {
      CalendarEnd(m.Next().year);
    }
  }

  lemma CarryBack(d: Date)
    requires Valid(d)
    ensures var p := MonthOf(d).Previous();
            if InRange(p) then Valid(LastOf(p)) && Ordinal(LastOf(p)) == Ordinal(d) - d.day else Ordinal(d) == d.day
  {
    var p := MonthOf(d).Previous();
    if InRange(p) {
      StartOfNext(p);
      assert p.Next() == MonthOf(d);
    }
  }

  lemma OrdinalInRange(d: Date)
    requires Valid(d)
    ensures 1 <= Ordinal(d) <= MAX_ORDINAL
  {
    WithinCalendar(MonthOf(d));
  }

  /**
   Adding days moves the day number by as many, and fails exactly outside years 1 to 9999: it is addition on
   day numbers.
   */
  lemma {:induction false} AddDaysMovesOrdinal(d: Date, n: int)
    requires Valid(d)
    ensures AddDays(d, n).Some? <==> 1 <= Ordinal(d) + n <= MAX_ORDINAL
    ensures AddDays(d, n).Some? ==> Valid(AddDays(d, n).value) && Ordinal(AddDays(d, n).value) == Ordinal(d) + n
    decreases if n < 0 then -n else n
  {
    var m := MonthOf(d);
    OrdinalInRange(d);
    if d.day + n > Days(m) {
      CarryForward(d);
      if InRange(m.Next()) {
        AddDaysMovesOrdinal(m.Next().First(), n - (Days(m) - d.day + 1));
      }
    } else if d.day + n < 1 {
      CarryBack(d);
      if InRange(m.Previous()) {
        AddDaysMovesOrdinal(LastOf(m.Previous()), n + d.day);
      }
    } else {
      OrdinalInRange(d.(day := d.day + n));
    }
  }

  // ----- Stepping by months ----------------------------------------------------------------------

  /** The month's first day, when the calendar has it. */
  function Known(m: Month): Option<Date> {
    if InRange(m) then Some(m.First()) else None
  }

  /** The day before a first of the month, moved back to the first. */
  function PreviousFirst(first: Date): Option<Date>
    requires Valid(first)
  {
    var r := AddDays(first, -1);
    if r.None? then None else Some(r.value.(day := 1))
  }

  /** 32 days after a first of the month, moved back to the first. */
  function FollowingFirst(first: Date): Option<Date>
    requires Valid(first)
  {
    var r := AddDays(first, 32);
    if r.None? then None else Some(r.value.(day := 1))
  }

  /** The successor computed on the pair, as the review generator does; None is the ValueError of year 10000. */
  function SuccessorByPair(first: Date): Option<Date> {
    var year := first.year + if first.month == 12 then 1 else 0;
    if year > LAST_YEAR then None else Some(Date(year, first.month % 12 + 1, 1))
  }

  lemma PreviousFirstIsPrevious(m: Month)
    requires InRange(m)
    ensures Valid(m.First()) && PreviousFirst(m.First()) == Known(m.Previous())
  {
  }

  /** Both ways of stepping to the next month agree, on every month, and fail together on the last one. */
  lemma DayStepIsPairStep(m: Month)
    requires InRange(m)
    ensures Valid(m.First()) && FollowingFirst(m.First()) == SuccessorByPair(m.First()) == Known(m.Next())
  {
  }

  /** The month a number of months back. */
  function Earlier(m: Month, n: nat): Month {
    if n == 0 then m else Earlier(m, n - 1).Previous()
  }

  lemma {:induction false} EarlierIndex(m: Month, n: nat)
    requires 1 <= m.month <= 12
    ensures 1 <= Earlier(m, n).month <= 12 && Earlier(m, n).Index() == m.Index() - n
  {
    if n > 0 {
      EarlierIndex(m, n - 1);
    }
  }

  /** `range(back)` repetitions. */
  function Repetitions(back: int): nat {
    if back < 0 then 0 else back
  }

  /** The first of the month `back` months before today's and of the one after it, when both are in the calendar. */
  function Bounds(today: Date, back: int): Option<(Date, Date)> {
    var m := Earlier(MonthOf(today), Repetitions(back));
    if InRange(m) && InRange(m.Next()) then Some((m.First(), m.Next().First())) else None
  }

  /** `month_bounds`; None is OverflowError. */
  method MonthBounds(today: Date, back: int) returns (bounds: Option<(Date, Date)>)
    requires Valid(today)
    ensures bounds == Bounds(today, back)
  {
    ghost var m := MonthOf(today);
    var first := today.(day := 1);
    var n := Repetitions(back);
    for i := 0 to n
      invariant InRange(Earlier(m, i)) && first == Earlier(m, i).First()
    {
      PreviousFirstIsPrevious(Earlier(m, i));
      EarlierIndex(m, i + 1);
      var earlier := PreviousFirst(first);
      if earlier.None? {
        EarlierIndex(m, n);
        EarlierIndex(m, i);
        return None;
      }
      first := earlier.value;
    }
    DayStepIsPairStep(Earlier(m, n));
    var following := FollowingFirst(first);
    return if following.None? then None else Some((first, following.value));
  }

  /**
   The bounds are the firsts of the month that many months back and of the one after it; there are none exactly
   when that month is before the calendar's first one, or is its last one.
   */
  lemma BoundsExistExactlyWhen(today: Date, back: int)
    requires Valid(today)
    ensures var month := MonthOf(today).Index() - if back < 0 then 0 else back;
            var start, end := Month(1, 1).Index(), Month(LAST_YEAR, 12).Index();
            && (Bounds(today, back).None? <==> month < start || month == end)
            && (Bounds(today, back).Some? ==>
                  var (first, following) := Bounds(today, back).value;
                  && first.day == 1 && MonthOf(first).Real() && MonthOf(first).Index() == month
                  && following.day == 1 && MonthOf(following).Real() && MonthOf(following).Index() == month + 1)
  {
    EarlierIndex(MonthOf(today), Repetitions(back));
  }

  lemma FirstsInOrder(d: Date, m: Month)
    requires Valid(d) && InRange(m)
    ensures Valid(m.First()) && (Ordinal(m.First()) <= Ordinal(d) <==> m.Index() <= MonthOf(d).Index())
  {
    if MonthOf(d).Index() < m.Index() {
      StartRises(MonthOf(d), m);
    } else if m.Index() < MonthOf(d).Index() {
      StartRises(m, MonthOf(d));
    } else {
      assert m == MonthOf(d);
    }
  }

  /**
   A date lies within the bounds for `back` exactly when its month is that many months back: the months tile
   the calendar.
   */
  lemma InBoundsExactlyWhenThatMonth(today: Date, back: nat, d: Date)
    requires Valid(today) && Valid(d) && Bounds(today, back).Some?
    ensures var (first, following) := Bounds(today, back).value;
            && Valid(first) && Valid(following)
            && (Ordinal(first) <= Ordinal(d) < Ordinal(following)
                <==> MonthOf(d).Index() == MonthOf(today).Index() - back)
  {
    var m := Earlier(MonthOf(today), back);
    EarlierIndex(MonthOf(today), back);
    FirstsInOrder(d, m);
    FirstsInOrder(d, m.Next());
  }

  /** Successive values of `back` meet without gap or overlap. */
  lemma BoundsMeet(today: Date, back: nat)
    requires Valid(today) && Bounds(today, back).Some? && Bounds(today, back + 1).Some?
    ensures Bounds(today, back + 1).value.1 == Bounds(today, back).value.0
  {
    EarlierIndex(MonthOf(today), back);
    assert Earlier(MonthOf(today), back + 1).Next() == Earlier(MonthOf(today), back);
  }

  // ----- Quarters --------------------------------------------------------------------------------

  /** The regression suite's last-quarter formulas; None is the ValueError of year 0. */
  function LastQuarter(today: Date): Option<(Date, Date)> {
    var q := (today.month - 1) / 3;
    var year := if q != 0 then today.year else today.year - 1;
    if year < 1 then None
    else
      var end := if q != 0 then Date(today.year, q * 3 + 1, 1) else Date(today.year, 1, 1);
      Some((Date(year, (q - 1) % 4 * 3 + 1, 1), end))
  }

  /** The formulas fail exactly in the first quarter of year 1. */
  lemma LastQuarterFailsExactlyWhen(today: Date)
    requires Valid(today)
    ensures LastQuarter(today).None? <==> today.year == 1 && today.month <= 3
  {
  }

  lemma SameIndex(a: Month, b: Month)
    requires 1 <= a.month <= 12 && 1 <= b.month <= 12 && a.Index() == b.Index()
    ensures a == b
  {
  }

  /** The first months of the quarter of `m` and of the quarter before. */
  lemma QuarterMonths(m: Month, q: int, into: nat)
    requires m.Real() && m.month - 1 == 3 * q + into && 0 <= q <= 3 && 0 <= into < 3
    ensures Earlier(m, into) == Month(m.year, 3 * q + 1)
    ensures Earlier(m, into + 3) == if q == 0 then Month(m.year - 1, 10) else Month(m.year, 3 * q - 2)
  {
    EarlierIndex(m, into);
    EarlierIndex(m, into + 3);
    SameIndex(Earlier(m, into), Month(m.year, 3 * q + 1));
    SameIndex(Earlier(m, into + 3), if q == 0 then Month(m.year - 1, 10) else Month(m.year, 3 * q - 2));
  }

  /**
   They give the three whole months before the current quarter: from `into + 3` months back up to `into`
   months back, where `into` is how far today's month is into its quarter.
   */
  lemma LastQuarterIsThreeMonths(today: Date)
    requires Valid(today)
    ensures var into := (today.month - 1) % 3;
            var a, b := Earlier(MonthOf(today), into + 3), Earlier(MonthOf(today), into);
            && b.month % 3 == 1
            && LastQuarter(today) == if InRange(a) then Some((a.First(), b.First())) else None
  {
    var into := (today.month - 1) % 3;
    var q := (today.month - 1) / 3;
    QuarterMonths(MonthOf(today), q, into);
  }
}
