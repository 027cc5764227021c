/** Splitting the sales lines into period files, and the three totals published with them. */
module SalesExport {
  import opened Common
  import opened Sorting
  import opened Grouping
  import opened TextOrder
  import opened Totals
  import opened Calendar
  import opened DecimalText
  import opened SalesGeneration

  datatype Period = Quarter | MonthLong

  /** The quarter or month of a year. */
  function Part(month: int, period: Period): (r: nat)
    requires 1 <= month <= 12
    ensures 1 <= r <= 12 && (period == Quarter ==> r <= 4)
  {
    match period case Quarter => (month - 1) / 3 + 1 case MonthLong => month
  }

  function Tail(month: int, period: Period): string
    requires 1 <= month <= 12
  {
    match period case Quarter => "-Q" + Digits(Part(month, period)) case MonthLong => "-" + Fraction(month, 2)
  }

  /** `_period_key`: `2025-Q2`, or `2025-04`. */
  function PeriodKey(d: Day, period: Period): string
  {
    Digits(d.year) + Tail(d.month, period)
  }

  // ----- The keys sort like the dates ------------------------------------------------------------

  lemma {:induction false} SamePrefix(p: string, x: string, y: string)
    ensures Leq(p + x, p + y) <==> Leq(x, y)
  {
    if p == [] {
      assert p + x == x && p + y == y;
    } else {
      assert (p + x)[1..] == p[1..] + x && (p + y)[1..] == p[1..] + y;
      SamePrefix(p[1..], x, y);
    }
  }

  /** Numbers of equally many digits sort like their texts, whatever follows. */
  lemma {:induction false} DigitsSort(a: nat, b: nat, x: string, y: string)
    requires a < b && |Digits(a)| == |Digits(b)|
    ensures Leq(Digits(a) + x, Digits(b) + y)
  {
    if b >= 10 {
      var p, q := Digits(a / 10), Digits(b / 10);
      var x', y' := [Digit(a % 10)] + x, [Digit(b % 10)] + y;
      assert Digits(a) + x == p + x' && Digits(b) + y == q + y';
      if a / 10 < b / 10 {
        DigitsSort(a / 10, b / 10, x', y');
      } else {
        SamePrefix(p, x', y');
      }
    }
  }

  lemma FourDigits(n: nat)
    requires 1000 <= n <= 9999
    ensures |Digits(n)| == 4
  {
    assert |Digits(n / 1000)| == 1;
    assert n / 100 / 10 == n / 1000;
    assert |Digits(n / 100)| == 2;
    assert n / 10 / 10 == n / 100;
    assert |Digits(n / 10)| == 3;
  }

  lemma OnePlace(k: nat)
    requires k < 10
    ensures Fraction(k, 1) == [Digit(k)]
  {
    assert k % 10 == k;
  }

  lemma TwoPlaces(m: nat)
    requires m < 100
    ensures Fraction(m, 2) == [Digit(m / 10), Digit(m % 10)]
  {
    OnePlace(m / 10);
  }

  lemma TwoPlacesRise(a: nat, b: nat)
    requires a <= b < 100
    ensures Leq(Fraction(a, 2), Fraction(b, 2))
  {
    TwoPlaces(a);
    TwoPlaces(b);
    var x, y := [Digit(a % 10)], [Digit(b % 10)];
    assert Fraction(a, 2)[1..] == x && Fraction(b, 2)[1..] == y;
    assert x[1..] == [] && y[1..] == [];
  }

  lemma TailsRise(a: int, b: int, period: Period)
    requires 1 <= a <= b <= 12
    ensures Leq(Tail(a, period), Tail(b, period))
  {
    match period
    case Quarter =>
      SamePrefix("-Q", Digits(Part(a, period)), Digits(Part(b, period)));
    case MonthLong =>
      TwoPlacesRise(a, b);
      SamePrefix("-", Fraction(a, 2), Fraction(b, 2));
  }

  lemma TailsDiffer(a: int, b: int, period: Period)
    requires 1 <= a <= 12 && 1 <= b <= 12 && Tail(a, period) == Tail(b, period)
    ensures Part(a, period) == Part(b, period)
  {
    match period
    case Quarter =>
      assert Tail(a, period)[2..] == Digits(Part(a, period)) && Tail(b, period)[2..] == Digits(Part(b, period));
      DigitsRead(Part(a, period));
      DigitsRead(Part(b, period));
    case MonthLong =>
      assert Tail(a, period)[1..] == Fraction(a, 2) && Tail(b, period)[1..] == Fraction(b, 2);
      TwoPlaces(a);
      TwoPlaces(b);
  }

  lemma NoLaterMonths(c: Day, d: Day)
    requires NoLater(c, d)
    ensures c.year < d.year || (c.year == d.year && c.month <= d.month)
  {
    if MonthOf(d).Index() < MonthOf(c).Index() {
      StartRises(MonthOf(d), MonthOf(c));
    }
  }

  /** From year 1000 on, an earlier date never has a later key. */
  lemma KeysRiseWithDates(c: Day, d: Day, period: Period)
    requires NoLater(c, d) && c.year >= 1000
    ensures Leq(PeriodKey(c, period), PeriodKey(d, period))
  {
    NoLaterMonths(c, d);
    FourDigits(c.year);
    FourDigits(d.year);
    if c.year < d.year {
      DigitsSort(c.year, d.year, Tail(c.month, period), Tail(d.month, period));
    } else {
      TailsRise(c.month, d.month, period);
      SamePrefix(Digits(c.year), Tail(c.month, period), Tail(d.month, period));
    }
  }

  /** A key names one quarter or month of one year. */
  lemma KeyNamesOnePeriod(c: Day, d: Day, period: Period)
    requires c.year >= 1000 && d.year >= 1000
    ensures PeriodKey(c, period) == PeriodKey(d, period) <==>
            (c.year == d.year && Part(c.month, period) == Part(d.month, period))
  {
    FourDigits(c.year);
    FourDigits(d.year);
    if PeriodKey(c, period) == PeriodKey(d, period) {
      assert PeriodKey(c, period)[..4] == Digits(c.year) && PeriodKey(d, period)[..4] == Digits(d.year);
      assert PeriodKey(c, period)[4..] == Tail(c.month, period) && PeriodKey(d, period)[4..] == Tail(d.month, period);
      DigitsRead(c.year);
      DigitsRead(d.year);
      TailsDiffer(c.month, d.month, period);
    }
  }

  // ----- The files -------------------------------------------------------------------------------

  datatype Format = CsvEnglish | CsvFrench | CsvArabic | XlsxEnglish | XlsxErp | XlsxDaily | Unknown

  datatype File = File(name: string, rows: seq<Line>)

  datatype Written = Files(files: seq<File>) | ValueError

  function FileName(format: Format, key: string): string {
    (if format == CsvFrench then "ventes_" else "sales_") + key
    + (if format == CsvEnglish || format == CsvFrench || format == CsvArabic then ".csv" else ".xlsx")
  }

  /** A file name names one period key. */
  lemma FileNameNamesKey(format: Format, a: string, b: string)
    ensures FileName(format, a) == FileName(format, b) <==> a == b
  {
    var stem := if format == CsvFrench then "ventes_" else "sales_";
    var mark := if format == CsvEnglish || format == CsvFrench || format == CsvArabic then ".csv" else ".xlsx";
    if FileName(format, a) == FileName(format, b) {
      assert FileName(format, a)[|stem|..|FileName(format, a)| - |mark|] == a;
      assert FileName(format, b)[|stem|..|FileName(format, b)| - |mark|] == b;
    }
  }

  /** Lines of two dates go to files of the same name exactly when they are in the same period of the same year. */
  lemma FileNamesOnePeriod(format: Format, c: Day, d: Day, period: Period)
    requires c.year >= 1000 && d.year >= 1000
    ensures FileName(format, PeriodKey(c, period)) == FileName(format, PeriodKey(d, period)) <==>
            (c.year == d.year && Part(c.month, period) == Part(d.month, period))
  {
    FileNameNamesKey(format, PeriodKey(c, period), PeriodKey(d, period));
    KeyNamesOnePeriod(c, d, period);
  }

  /** No file overwrites another. */
  lemma FilesAreDistinct(lines: seq<Line>, format: Format, period: Period, i: nat, j: nat)
    requires i < j < |PeriodKeys(lines, period)|
    ensures var files := FilesFor(lines, format, period, PeriodKeys(lines, period)); files[i].name != files[j].name
  {
    var keys := PeriodKeys(lines, period);
    PeriodKeysAreSorted(lines, period);
    FileNameNamesKey(format, keys[i], keys[j]);
  }

  function ByPeriod(period: Period): Line -> string {
    (line: Line) => PeriodKey(line.date, period)
  }

  /** `sorted(by_period)`. */
  function PeriodKeys(lines: seq<Line>, period: Period): seq<string> {
    Sort(KeysOf(lines, ByPeriod(period)), Leq)
  }

  lemma PeriodKeysAreSorted(lines: seq<Line>, period: Period)
    ensures Ascending(PeriodKeys(lines, period)) && Covered(lines, ByPeriod(period), PeriodKeys(lines, period))
    ensures forall k :: k in PeriodKeys(lines, period) <==> k in KeysOf(lines, ByPeriod(period))
  {
    SortedKeys(KeysOf(lines, ByPeriod(period)));
  }

  function FilesFor(lines: seq<Line>, format: Format, period: Period, keys: seq<string>): (r: seq<File>)
    ensures |r| == |keys|
    ensures forall i ::
            0 <= i < |r| ==> r[i] == File(FileName(format, keys[i]), Group(lines, ByPeriod(period), keys[i]))
  {
    if keys == [] then []
    else
      var first := File(FileName(format, keys[0]), Group(lines, ByPeriod(period), keys[0]));
      [first] + FilesFor(lines, format, period, keys[1..])
  }

  lemma AnyPeriodExactlyWhenAnyLine(lines: seq<Line>, period: Period)
    ensures PeriodKeys(lines, period) == [] <==> lines == []
  {
    PeriodKeysAreSorted(lines, period);
    if lines != [] {
      assert ByPeriod(period)(lines[0]) in PeriodKeys(lines, period);
    } else {
      assert KeysOf(lines, ByPeriod(period)) == [];
    }
  }

  /** The file the loop writes at its n-th turn. */
  lemma FileAt(d: Dict<Line>, lines: seq<Line>, format: Format, period: Period, n: nat)
    requires Holds(d, lines, ByPeriod(period)) && n < |PeriodKeys(lines, period)|
    ensures var keys := PeriodKeys(lines, period);
            keys[n] in d.groups
            && FilesFor(lines, format, period, keys)[n] == File(FileName(format, keys[n]), d.groups[keys[n]])
  {
    PeriodKeysAreSorted(lines, period);
    assert PeriodKeys(lines, period)[n] in PeriodKeys(lines, period);
  }

  method WriteFiles(byPeriod: Dict<Line>, keys: seq<string>, format: Format, ghost wanted: seq<File>)
    returns (files: seq<File>)
    requires |wanted| == |keys|
    requires forall n :: 0 <= n < |keys| ==>
      keys[n] in byPeriod.groups && wanted[n] == File(FileName(format, keys[n]), byPeriod.groups[keys[n]])
    ensures files == wanted
  {
    files := [];
    for n := 0 to |keys|
      invariant files == wanted[..n]
    {
      files := files + [File(FileName(format, keys[n]), byPeriod.groups[keys[n]])];
    }
  }

  /** `write_exports`; an unknown format is noticed at the first period, so never for an empty history. */
  method WriteExports(lines: seq<Line>, format: Format, period: Period) returns (written: Written)
    ensures written == if format == Unknown && lines != [] then ValueError
                       else Files(FilesFor(lines, format, period, PeriodKeys(lines, period)))
  {
    var byPeriod := GroupBy(lines, ByPeriod(period));
    var keys := Sort(byPeriod.order, Leq);
    AnyPeriodExactlyWhenAnyLine(lines, period);
    if format == Unknown && keys != [] {
      return ValueError;
    }
    forall n | 0 <= n < |keys|
      ensures keys[n] in byPeriod.groups
      ensures FilesFor(lines, format, period, keys)[n] == File(FileName(format, keys[n]), byPeriod.groups[keys[n]])
    {
      FileAt(byPeriod, lines, format, period, n);
    }
    var files := WriteFiles(byPeriod, keys, format, FilesFor(lines, format, period, keys));
    return Files(files);
  }

  function AllRows(files: seq<File>): seq<Line> {
    if files == [] then [] else files[0].rows + AllRows(files[1..])
  }

  lemma {:induction false} AllRowsAreJoined(lines: seq<Line>, format: Format, period: Period, keys: seq<string>)
    ensures AllRows(FilesFor(lines, format, period, keys)) == Joined(lines, ByPeriod(period), keys)
    decreases |keys|
  {
    if keys != [] {
      AllRowsAreJoined(lines, format, period, keys[1..]);
      assert FilesFor(lines, format, period, keys)[1..] == FilesFor(lines, format, period, keys[1..]);
    }
  }

  /** Reading the files in the order they are listed gives the sales list back. */
  lemma FilesRestoreTheLines(lines: seq<Line>, format: Format, period: Period)
    requires DateOrdered(lines) && forall i :: 0 <= i < |lines| ==> lines[i].date.year >= 1000
    ensures AllRows(FilesFor(lines, format, period, PeriodKeys(lines, period))) == lines
  {
    var keys := PeriodKeys(lines, period);
    PeriodKeysAreSorted(lines, period);
    forall i, j | 0 <= i < j < |lines| ensures Leq(ByPeriod(period)(lines[i]), ByPeriod(period)(lines[j])) {
      KeysRiseWithDates(lines[i].date, lines[j].date, period);
    }
    JoiningRestores(lines, ByPeriod(period), keys);
    AllRowsAreJoined(lines, format, period, keys);
  }

  /** What the generator makes splits into files that read back as generated, whatever was drawn. */
  lemma GeneratedFilesRestore(c: Company, lines: seq<Line>, start: Day, before: int, last: nat, format: Format,
                              period: Period)
    requires AllDays(c, lines, start, before, last) && start.year >= 1000
    ensures AllRows(FilesFor(lines, format, period, PeriodKeys(lines, period))) == lines
  {
    forall i | 0 <= i < |lines| ensures lines[i].date.year >= 1000 {
      assert lines[i] in lines;
      NoLaterMonths(start, lines[i].date);
    }
    FilesRestoreTheLines(lines, format, period);
  }

  // ----- The published totals --------------------------------------------------------------------

  /** `isoformat`. */
  function Iso(d: Day): (r: string)
    ensures |r| == 10
  {
    Fraction(d.year, 4) + "-" + Fraction(d.month, 2) + "-" + Fraction(d.day, 2)
  }

  function ProductItems(lines: seq<Line>): (r: seq<Item<string>>)
    ensures |r| == |lines| && forall i :: 0 <= i < |r| ==> r[i] == Item(lines[i].product.nameEn, lines[i].total)
  {
    seq(|lines|, i requires 0 <= i < |lines| => Item(lines[i].product.nameEn, lines[i].total))
  }

  function DayItems(lines: seq<Line>): (r: seq<Item<string>>)
    ensures |r| == |lines| && forall i :: 0 <= i < |r| ==> r[i] == Item(Iso(lines[i].date), lines[i].total)
  {
    seq(|lines|, i requires 0 <= i < |lines| => Item(Iso(lines[i].date), lines[i].total))
  }

  /** `sum(line["total"] for line in lines)`. */
  function Revenue(lines: seq<Line>): real {
    if lines == [] then 0.0 else Revenue(lines[..|lines| - 1]) + lines[|lines| - 1].total
  }

  lemma DailyStep(lines: seq<Line>, n: nat)
    requires n < |lines|
    ensures Grouped(DayItems(lines[..n + 1])) == Add(Grouped(DayItems(lines[..n])), Iso(lines[n].date), lines[n].total)
  {
    assert lines[..n + 1] == lines[..n] + [lines[n]];
    DayItemsAppend(lines[..n], lines[n]);
    GroupedAppend(DayItems(lines[..n]), Item(Iso(lines[n].date), lines[n].total));
  }

  /** `_daily`. */
  method Daily(lines: seq<Line>) returns (daily: map<string, real>)
    ensures daily == Grouped(DayItems(lines))
  {
    daily := map[];
    for n := 0 to |lines|
      invariant daily == Grouped(DayItems(lines[..n]))
    {
      DailyStep(lines, n);
      daily := Add(daily, Iso(lines[n].date), lines[n].total);
    }
    assert lines[..|lines|] == lines;
  }

  lemma {:induction false} ItemsSum(lines: seq<Line>)
    ensures SumOf(ProductItems(lines)) == SumOf(DayItems(lines)) == Revenue(lines)
  {
    if lines != [] {
      var n := |lines| - 1;
      ItemsSum(lines[..n]);
      assert ProductItems(lines)[..n] == ProductItems(lines[..n]);
      assert DayItems(lines)[..n] == DayItems(lines[..n]);
    }
  }

  /** Per-product revenue, per-day revenue and the grand total are the same sum. */
  lemma ThreeTotalsAgree(lines: seq<Line>)
    ensures Sum(Grouped(ProductItems(lines))) == Sum(Grouped(DayItems(lines))) == Revenue(lines)
  {
    ItemsSum(lines);
    GroupedSum(ProductItems(lines));
    GroupedSum(DayItems(lines));
  }

  /** What a line would come to unrounded. */
  function ExactTotal(l: Line): real {
    Discounted(l.qty * l.price, l.discount)
  }

  function Exact(): Line -> real {
    (l: Line) => ExactTotal(l)
  }

  function SumBy(lines: seq<Line>, amount: Line -> real): real {
    if lines == [] then 0.0 else SumBy(lines[..|lines| - 1], amount) + amount(lines[|lines| - 1])
  }

  /** n equal amounts. */
  function Repeated(off: real, n: nat): real {
    if n == 0 then 0.0 else Repeated(off, n - 1) + off
  }

  lemma {:induction false} RepeatedIsProduct(off: real, n: nat)
    ensures Repeated(off, n) == off * n as real
  {
    if n > 0 {
      RepeatedIsProduct(off, n - 1);
      OneMoreTimes(off, n - 1);
    }
  }

  lemma OneMoreTimes(x: real, n: nat)
    ensures x * (n + 1) as real == x * n as real + x
  {
  }

  lemma {:induction false} OffBy(lines: seq<Line>, amount: Line -> real, off: real)
    requires forall l :: l in lines ==> -off <= l.total - amount(l) <= off
    ensures -Repeated(off, |lines|) <= Revenue(lines) - SumBy(lines, amount) <= Repeated(off, |lines|)
  {
    if lines != [] {
      var init, last := lines[..|lines| - 1], lines[|lines| - 1];
      assert last in lines;
      OffBy(init, amount, off);
    }
  }

  lemma TotalIsNearest(gross: real, discount: int, currency: string)
    ensures var exact := Discounted(gross, discount);
            -HalfUnit(currency) <= Money(exact, currency) - exact <= HalfUnit(currency)
  {
    MoneyIsNearest(Discounted(gross, discount), currency);
  }

  lemma LineIsNearest(c: Company, l: Line, off: real)
    requires l.total == Total(l.qty, l.price, l.discount, c.currency) && off == HalfUnit(c.currency)
    ensures -off <= l.total - Exact()(l) <= off
  {
    TotalIsNearest(l.qty * l.price, l.discount, c.currency);
    assert Exact()(l) == ExactTotal(l) == Discounted(l.qty * l.price, l.discount);
  }

  lemma LinesAreNearest(c: Company, lines: seq<Line>, off: real)
    requires off == HalfUnit(c.currency) && forall l :: l in lines ==> LineOk(c, l)
    ensures forall l :: l in lines ==> -off <= l.total - Exact()(l) <= off
  {
    forall l | l in lines ensures -off <= l.total - Exact()(l) <= off {
      assert LineOk(c, l);
      LineIsNearest(c, l, off);
    }
  }

  lemma RoundingAddsUp(c: Company, lines: seq<Line>, off: real)
    requires off == HalfUnit(c.currency) && forall l :: l in lines ==> LineOk(c, l)
    ensures -Repeated(off, |lines|) <= Revenue(lines) - SumBy(lines, Exact()) <= Repeated(off, |lines|)
  {
    LinesAreNearest(c, lines, off);
    OffBy(lines, Exact(), off);
  }

  lemma WithinProduct(gap: real, off: real, n: nat)
    requires -Repeated(off, n) <= gap <= Repeated(off, n)
    ensures -(off * n as real) <= gap <= off * n as real
  {
    RepeatedIsProduct(off, n);
  }

  /** Rounding line by line moves the revenue by at most half a minor unit per line. */
  lemma RoundingIsBounded(c: Company, lines: seq<Line>, off: real)
    requires off == HalfUnit(c.currency) && forall l :: l in lines ==> LineOk(c, l)
    ensures -(off * |lines| as real) <= Revenue(lines) - SumBy(lines, Exact()) <= off * |lines| as real
  {
    RoundingAddsUp(c, lines, off);
    WithinProduct(Revenue(lines) - SumBy(lines, Exact()), off, |lines|);
  }

  // ----- The window of verify.py -------------------------------------------------------------------

  const DAY: int := 86400000000

  /** Microseconds from 0001-01-01 to a date's midnight, in UTC. */
  function Midnight(d: Date): int
    requires Valid(d)
  {
    (Ordinal(d) - 1) * DAY
  }

  /** `fromisoformat` on a date text. */
  function ParseIso(s: string): Date {
    if |s| == 10 then Date(ToNat(s[..4]), ToNat(s[5..7]), ToNat(s[8..])) else Date(0, 0, 0)
  }

  predicate Since(s: string, start: int) {
    Valid(ParseIso(s)) && Midnight(ParseIso(s)) >= start
  }

  function InWindow(start: int): string -> bool {
    (s: string) => Since(s, start)
  }

  function SumSince(daily: seq<Item<string>>, start: int): real {
    SumOf(Filtered(daily, InWindow(start)))
  }

  /** `window_sum`; None when the start of the window is outside the range of dates. */
  function WindowSum(daily: seq<Item<string>>, window: int, now: int): Option<real> {
    var start := now - window * DAY;
    if 0 <= start < MAX_ORDINAL * DAY then Some(SumSince(daily, start)) else None
  }

  lemma {:induction false} LowOfSmall(n: nat, k: nat)
    requires n < Pow10(k)
    ensures Low(n, k) == n
  {
    if k > 0 {
      LowOfSmall(n / 10, k - 1);
    }
  }

  lemma ReadPlaces(n: nat, k: nat)
    requires n < Pow10(k)
    ensures ToNat(Fraction(n, k)) == n
  {
    FractionRead(n, k);
    LowOfSmall(n, k);
  }

  lemma IsoReads(d: Day)
    ensures ParseIso(Iso(d)) == d
  {
    var s := Iso(d);
    assert s[..4] == Fraction(d.year, 4) && s[5..7] == Fraction(d.month, 2) && s[8..] == Fraction(d.day, 2);
    assert Pow10(2) == 100 && Pow10(4) == 10000;
    ReadPlaces(d.year, 4);
    ReadPlaces(d.month, 2);
    ReadPlaces(d.day, 2);
  }

  function LinesSince(lines: seq<Line>, start: int): seq<Line> {
    if lines == [] then []
    else
      var last := lines[|lines| - 1];
      var before := LinesSince(lines[..|lines| - 1], start);
      if Midnight(last.date) >= start then before + [last] else before
  }

  lemma RevenueAppend(lines: seq<Line>, x: Line)
    ensures Revenue(lines + [x]) == Revenue(lines) + x.total
  {
    assert (lines + [x])[..|lines|] == lines;
  }

  lemma DayItemsAppend(lines: seq<Line>, x: Line)
    ensures DayItems(lines + [x]) == DayItems(lines) + [Item(Iso(x.date), x.total)]
  {
  }

  lemma FilteredAppend<K>(items: seq<Item<K>>, x: Item<K>, keep: K -> bool)
    ensures SumOf(Filtered(items + [x], keep)) == SumOf(Filtered(items, keep)) + if keep(x.key) then x.amount else 0.0
  {
    assert (items + [x])[..|items|] == items;
    if keep(x.key) {
      GroupedAppend(Filtered(items, keep), x);
    } else {
      assert Filtered(items + [x], keep) == Filtered(items, keep);
    }
  }

  lemma SinceIso(d: Day, start: int)
    ensures InWindow(start)(Iso(d)) <==> Midnight(d) >= start
  {
    IsoReads(d);
  }

  lemma SinceAppend(lines: seq<Line>, x: Line, start: int)
    ensures Revenue(LinesSince(lines + [x], start))
            == Revenue(LinesSince(lines, start)) + if Midnight(x.date) >= start then x.total else 0.0
  {
    assert (lines + [x])[..|lines|] == lines;
    RevenueAppend(LinesSince(lines, start), x);
  }

  lemma DaySumAppend(lines: seq<Line>, x: Line, start: int)
    ensures SumSince(DayItems(lines + [x]), start)
            == SumSince(DayItems(lines), start) + if Midnight(x.date) >= start then x.total else 0.0
  {
    DayItemsAppend(lines, x);
    SinceIso(x.date, start);
    FilteredAppend(DayItems(lines), Item(Iso(x.date), x.total), InWindow(start));
  }

  /** The index and the lines have the same sum since a moment. */
  ghost predicate SumsAgree(lines: seq<Line>, start: int) {
    SumSince(DayItems(lines), start) == Revenue(LinesSince(lines, start))
  }

  lemma NothingAgrees(start: int)
    ensures SumsAgree([], start)
  {
    assert DayItems([]) == [];
  }

  /** One line more moves both sums alike. */
  lemma SumsAppend(lines: seq<Line>, x: Line, start: int)
    requires SumsAgree(lines, start)
    ensures SumsAgree(lines + [x], start)
  {
    DaySumAppend(lines, x, start);
    SinceAppend(lines, x, start);
  }

  lemma {:induction false} DirectSum(lines: seq<Line>, start: int)
    ensures SumsAgree(lines, start)
  {
    if lines == [] {
      NothingAgrees(start);
    } else {
      var init, last := lines[..|lines| - 1], lines[|lines| - 1];
      assert lines == init + [last];
      DirectSum(init, start);
      SumsAppend(init, last, start);
    }
  }

  lemma SumSinceIsDirect(lines: seq<Line>, daily: seq<Item<string>>, start: int)
    requires Lists(Grouped(DayItems(lines)), daily)
    ensures SumSince(daily, start) == Revenue(LinesSince(lines, start))
  {
    SelectedSum(DayItems(lines), daily, InWindow(start));
    DirectSum(lines, start);
  }

  /** The windowed sum over the daily index is the sum of the lines in the window, for every window and moment. */
  lemma WindowIsDirect(lines: seq<Line>, daily: seq<Item<string>>, window: int, now: int)
    requires Lists(Grouped(DayItems(lines)), daily)
    requires WindowSum(daily, window, now).Some?
    ensures WindowSum(daily, window, now).value == Revenue(LinesSince(lines, now - window * DAY))
  {
    var start := now - window * DAY;
    SumSinceIsDirect(lines, daily, start);
  }

  /** The sum exists exactly when the day that many days before today is in the calendar. */
  lemma WindowExistsExactlyWhen(daily: seq<Item<string>>, window: int, today: Day, time: int)
    requires 0 <= time < DAY
    ensures WindowSum(daily, window, Midnight(today) + time).Some? <==> AddDays(today, -window).Some?
  {
    AddDaysMovesOrdinal(today, -window);
    DaysAndTime(Ordinal(today) - 1 - window, time);
    assert Midnight(today) + time - window * DAY == (Ordinal(today) - 1 - window) * DAY + time;
  }

  lemma DaysAndTime(n: int, time: int)
    requires 0 <= time < DAY
    ensures 0 <= n * DAY + time < MAX_ORDINAL * DAY <==> 0 <= n < MAX_ORDINAL
  {
  }

  /** A window of n days holds today and the n - 1 days before it, or one more when it is exactly midnight. */
  lemma WindowDays(d: Day, today: Day, time: int, window: int)
    requires 0 <= time < DAY
    ensures Midnight(d) >= Midnight(today) + time - window * DAY <==>
            Ordinal(d) >= Ordinal(today) - window + (if time == 0 then 0 else 1)
  {
    var gap := Ordinal(d) - Ordinal(today) + window;
    assert Midnight(d) - (Midnight(today) - window * DAY) == gap * DAY;
  }
}
