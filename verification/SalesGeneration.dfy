/**
 The sales-history generator: one day after another, receipts of distinct active products at that day's price.

 Every random draw is an arbitrary choice. Money and quantities are exact reals, where the program passes
 decimals through floats.
 */
module SalesGeneration {
  import opened Common
  import opened Calendar

  /** A Python `date`: always a day of the calendar. */
  type Day = d: Date | Valid(d) witness Date(1, 1, 1)

  datatype PricePoint = PricePoint(effective: Day, price: real)

  type History = h: seq<PricePoint> | h != [] witness [PricePoint(Date(1, 1, 1), 0.0)]

  datatype Product = Product(nameEn: string, category: string, priceHistory: History, launched: Option<Day>,
                             discontinued: Option<Day>)

  datatype Company = Company(key: string, currency: string, products: seq<Product>, discountPcts: seq<int>,
                             linesPerReceipt: (nat, nat))

  /** The order column: a daily summary, a retainer invoice or a receipt; the last two share one number sequence. */
  datatype Order = Summary(day: Day) | Retainer(year: int, number: nat) | Receipt(number: nat)

  datatype Line = Line(date: Day, order: Order, product: Product, qty: real, price: real, discount: int, total: real)

  const HISTORY_START: Day := Date(2025, 4, 1)
  const RAMADAN_START: Day := Date(2026, 2, 18)
  const RAMADAN_END: Day := Date(2026, 3, 19)
  const FIRST_ORDER: nat := 1000

  predicate NoLater(c: Day, d: Day) {
    Ordinal(c) <= Ordinal(d)
  }

  // ----- Money -----------------------------------------------------------------------------------

  function RoundHalfUp(x: real): (n: int) {
    if x >= 0.0 then (x + 0.5).Floor else -((0.5 - x).Floor)
  }

  predicate ThreeDecimals(currency: string) {
    currency == "JOD" || currency == "KWD" || currency == "BHD" || currency == "OMR" || currency == "TND"
  }

  /** `money`: to the currency's minor unit, half up. */
  function Money(x: real, currency: string): real {
    if ThreeDecimals(currency) then RoundHalfUp(x * 1000.0) as real / 1000.0 else RoundHalfUp(x * 100.0) as real / 100.0
  }

  lemma RoundedIsNearest(x: real)
    ensures -0.5 <= RoundHalfUp(x) as real - x <= 0.5
  {
  }

  /** Half up: the nearest whole number, and of two equally near ones the one further from zero. */
  lemma RoundsExactlyTo(x: real, n: int)
    ensures RoundHalfUp(x) == n <==>
            if x >= 0.0 then n as real - 0.5 <= x < n as real + 0.5 else n as real - 0.5 < x <= n as real + 0.5
  {
    if x >= 0.0 {
      assert (x + 0.5).Floor == n <==> n as real <= x + 0.5 < n as real + 1.0;
    } else {
      assert (0.5 - x).Floor == -n <==> (-n) as real <= 0.5 - x < (-n) as real + 1.0;
    }
  }

  /** A sum of money exactly half a minor unit above a whole number of them is rounded up. */
  lemma MoneyRoundsTiesUp(units: nat, currency: string)
    ensures var scale := if ThreeDecimals(currency) then 1000.0 else 100.0;
            Money((units as real + 0.5) / scale, currency) == (units + 1) as real / scale
  {
    RoundsExactlyTo(units as real + 0.5, units + 1);
  }

  lemma WholeIsKept(n: int)
    ensures RoundHalfUp(n as real) == n
  {
    var x := n as real;
    if n >= 0 {
      assert (x + 0.5).Floor == n;
    } else {
      assert (0.5 - x).Floor == -n;
    }
  }

  /** Half of the currency's minor unit. */
  function HalfUnit(currency: string): real {
    if ThreeDecimals(currency) then 0.0005 else 0.005
  }

  lemma MoneyIsNearest(x: real, currency: string)
    ensures -HalfUnit(currency) <= Money(x, currency) - x <= HalfUnit(currency)
  {
    RoundedIsNearest(x * 1000.0);
    RoundedIsNearest(x * 100.0);
  }

  lemma MoneyIsStable(x: real, currency: string)
    ensures Money(Money(x, currency), currency) == Money(x, currency)
  {
    if ThreeDecimals(currency) {
      WholeIsKept(RoundHalfUp(x * 1000.0));
    } else {
      WholeIsKept(RoundHalfUp(x * 100.0));
    }
  }

  function Discounted(gross: real, discount: int): real {
    gross * ((100 - discount) as real) / 100.0
  }

  /** A line's total: quantity times price, less the discount. */
  function Total(qty: real, price: real, discount: int, currency: string): real {
    Money(Discounted(qty * price, discount), currency)
  }

  lemma Undiscounted(gross: real)
    ensures Discounted(gross, 0) == gross
  {
    assert (100 - 0) as real == 100.0;
  }

  // ----- Prices ----------------------------------------------------------------------------------

  /** The last listed price in force by a day, or the first price when none is. */
  function PriceOn(h: History, day: Day): real {
    if |h| == 1 || NoLater(h[|h| - 1].effective, day) then h[|h| - 1].price else PriceOn(h[..|h| - 1], day)
  }

  lemma {:induction false} PriceOnFirst(h: History, day: Day)
    requires forall i :: 0 < i < |h| ==> !NoLater(h[i].effective, day)
    ensures PriceOn(h, day) == h[0].price
  {
    if |h| > 1 {
      PriceOnFirst(h[..|h| - 1], day);
    }
  }

  lemma {:induction false} PriceOnLatest(h: History, day: Day, k: nat)
    requires k < |h| && NoLater(h[k].effective, day)
    requires forall i :: k < i < |h| ==> !NoLater(h[i].effective, day)
    ensures PriceOn(h, day) == h[k].price
  {
    if k < |h| - 1 {
      PriceOnLatest(h[..|h| - 1], day, k);
    }
  }

  /** `price_on`. */
  method CurrentPrice(h: History, day: Day) returns (current: real)
    ensures current == PriceOn(h, day)
  {
    current := h[0].price;
    ghost var at: int := -1;
    for n := 0 to |h|
      invariant -1 <= at < n && current == h[if at < 0 then 0 else at].price
      invariant at >= 0 ==> NoLater(h[at].effective, day)
      invariant forall i :: at < i < n ==> !NoLater(h[i].effective, day)
    {
      if NoLater(h[n].effective, day) {
        current, at := h[n].price, n;
      }
    }
    if at < 0 {
      PriceOnFirst(h, day);
    } else {
      PriceOnLatest(h, day, at);
    }
  }

  /** `active`. */
  predicate Active(p: Product, day: Day) {
    && (p.launched.Some? ==> NoLater(p.launched.value, day))
    && (p.discontinued.Some? ==> !NoLater(p.discontinued.value, day))
    && NoLater(p.priceHistory[0].effective, day)
  }

  // ----- What a line may say ---------------------------------------------------------------------

  /** The monthly fee product that one company invoices on the first of every month. */
  predicate IsFee(p: Product) {
    "Accompagnement" <= p.nameEn
  }

  function FirstFee(products: seq<Product>): (r: Option<Product>)
    ensures r.Some? ==> r.value in products && IsFee(r.value)
    ensures r.None? ==> forall p :: p in products ==> !IsFee(p)
  {
    if products == [] then None else if IsFee(products[0]) then Some(products[0]) else FirstFee(products[1..])
  }

  predicate InvoicesFees(c: Company, day: Day) {
    c.key == "clarity" && day.day == 1
  }

  /** The store's Ramadan promotion on dates. */
  predicate Promoted(c: Company, p: Product, day: Day) {
    c.key == "zaytouna" && NoLater(RAMADAN_START, day) && NoLater(day, RAMADAN_END) && p.category == "Dates"
  }

  predicate LineOk(c: Company, line: Line) {
    && line.product in c.products
    && line.qty > 0.0
    && line.price == Money(PriceOn(line.product.priceHistory, line.date), c.currency)
    && line.total == Total(line.qty, line.price, line.discount, c.currency)
    && (line.order.Retainer? || Active(line.product, line.date))
    && (line.order.Retainer? ==> InvoicesFees(c, line.date) && FirstFee(c.products) == Some(line.product))
    && (line.order.Receipt? && Promoted(c, line.product, line.date) ==> line.discount == 10)
    && (line.discount == 0 || line.discount in c.discountPcts || Promoted(c, line.product, line.date))
  }

  /** A day's order: its own summary, or a number above one bound and up to another. */
  predicate OrderIn(o: Order, day: Day, after: nat, last: nat) {
    match o
    case Summary(d) => d == day
    case Retainer(year, n) => year == day.year && after < n <= last
    case Receipt(n) => after < n <= last
  }

  predicate NamesApart(products: seq<Product>) {
    forall i, j :: 0 <= i < j < |products| ==> products[i].nameEn != products[j].nameEn
  }

  /** No product twice on one order. */
  ghost predicate OnePerOrder(lines: seq<Line>) {
    forall i, j :: 0 <= i < j < |lines| && lines[i].order == lines[j].order ==>
      lines[i].product.nameEn != lines[j].product.nameEn
  }

  ghost predicate OrdersOk(c: Company, lines: seq<Line>) {
    c.key != "beit" || NamesApart(c.products) ==> OnePerOrder(lines)
  }

  /** The lines of one day, with the order numbers drawn for them. */
  ghost predicate DayLines(c: Company, lines: seq<Line>, day: Day, after: nat, last: nat) {
    && after <= last
    && (forall l :: l in lines ==> LineOk(c, l) && l.date == day && OrderIn(l.order, day, after, last))
    && OrdersOk(c, lines)
  }

  ghost predicate DateOrdered(lines: seq<Line>) {
    forall i, j :: 0 <= i < j < |lines| ==> NoLater(lines[i].date, lines[j].date)
  }

  /** The lines of all days from a first day to before a day number. */
  ghost predicate AllDays(c: Company, lines: seq<Line>, start: Day, before: int, last: nat) {
    && FIRST_ORDER <= last
    && (forall l :: l in lines ==> LineOk(c, l) && NoLater(start, l.date) && Ordinal(l.date) < before)
    && (forall l :: l in lines ==> OrderIn(l.order, l.date, FIRST_ORDER, last))
    && DateOrdered(lines)
    && OrdersOk(c, lines)
  }

  // ----- Every number drawn is used --------------------------------------------------------------

  /** Each number above one bound and up to another is on some receipt or invoice. */
  ghost predicate NoGaps(lines: seq<Line>, after: nat, last: nat) {
    forall n: nat :: after < n <= last ==> Uses(lines, n)
  }

  ghost predicate Uses(lines: seq<Line>, n: nat) {
    exists l :: l in lines && !l.order.Summary? && l.order.number == n
  }

  lemma UsedBefore(a: seq<Line>, b: seq<Line>, n: nat)
    requires Uses(a, n) || Uses(b, n)
    ensures Uses(a + b, n)
  {
    if Uses(a, n) {
      var l :| l in a && !l.order.Summary? && l.order.number == n;
      assert l in a + b;
    } else {
      var l :| l in b && !l.order.Summary? && l.order.number == n;
      assert l in a + b;
    }
  }

  lemma NoGapsJoin(a: seq<Line>, b: seq<Line>, after: nat, mid: nat, last: nat)
    requires NoGaps(a, after, mid) && NoGaps(b, mid, last)
    ensures NoGaps(a + b, after, last)
  {
    forall n: nat | after < n <= last ensures Uses(a + b, n) {
      UsedBefore(a, b, n);
    }
  }

  /** The company's receipts have at least one line each. */
  predicate Ranged(c: Company) {
    1 <= c.linesPerReceipt.0 <= c.linesPerReceipt.1
  }

  ghost predicate AllUsed(c: Company, lines: seq<Line>, after: nat, last: nat) {
    Ranged(c) ==> NoGaps(lines, after, last)
  }

  lemma AllUsedJoin(c: Company, a: seq<Line>, b: seq<Line>, after: nat, mid: nat, last: nat)
    requires AllUsed(c, a, after, mid) && AllUsed(c, b, mid, last)
    ensures AllUsed(c, a + b, after, last)
  {
    if Ranged(c) {
      NoGapsJoin(a, b, after, mid, last);
    }
  }

  // ----- Order numbers and fees ------------------------------------------------------------------

  /** Receipts and retainer invoices carry numbers; along the lines these never fall. */
  ghost predicate NumbersRise(lines: seq<Line>) {
    forall i, j :: 0 <= i < j < |lines| && !lines[i].order.Summary? && !lines[j].order.Summary? ==>
      lines[i].order.number <= lines[j].order.number
  }

  /** The numbers of a day's retainer invoices, in their order. */
  function FeeNumbers(lines: seq<Line>, day: Day): seq<nat> {
    if lines == [] then []
    else if lines[0].date == day && lines[0].order.Retainer? then [lines[0].order.number] + FeeNumbers(lines[1..], day)
    else FeeNumbers(lines[1..], day)
  }

  /** Exactly three invoices with consecutive numbers when fees are due, none otherwise. */
  ghost predicate FeesOn(c: Company, lines: seq<Line>, day: Day) {
    if InvoicesFees(c, day) then exists k :: Consecutive(FeeNumbers(lines, day), k) else FeeNumbers(lines, day) == []
  }

  predicate Consecutive(numbers: seq<nat>, k: nat) {
    numbers == [k + 1, k + 2, k + 3]
  }

  /** Numbers never fall, and every day in the range has the invoices due. */
  ghost predicate Invoiced(c: Company, lines: seq<Line>, start: Day, before: int) {
    && NumbersRise(lines)
    && forall d: Day :: NoLater(start, d) && Ordinal(d) < before ==> FeesOn(c, lines, d)
  }

  lemma {:induction false} FeeNumbersJoin(a: seq<Line>, b: seq<Line>, day: Day)
    ensures FeeNumbers(a + b, day) == FeeNumbers(a, day) + FeeNumbers(b, day)
  {
    if a == [] {
      assert a + b == b;
    } else {
      assert (a + b)[1..] == a[1..] + b;
      FeeNumbersJoin(a[1..], b, day);
    }
  }

  lemma {:induction false} NoFees(lines: seq<Line>, day: Day)
    requires forall l :: l in lines ==> l.date != day || !l.order.Retainer?
    ensures FeeNumbers(lines, day) == []
  {
    if lines != [] {
      assert lines[0] in lines;
      NoFees(lines[1..], day);
    }
  }

  lemma NumbersJoin(a: seq<Line>, b: seq<Line>, after: nat, mid: nat, last: nat)
    requires NumbersRise(a) && NumbersRise(b)
    requires forall l :: l in a ==> OrderIn(l.order, l.date, after, mid)
    requires forall l :: l in b ==> OrderIn(l.order, l.date, mid, last)
    ensures NumbersRise(a + b)
  {
    forall i, j | 0 <= i < |a| && 0 <= j < |b| && !a[i].order.Summary? && !b[j].order.Summary?
      ensures a[i].order.number <= b[j].order.number
    {
      assert a[i] in a && b[j] in b;
    }
  }

  /** Lines without invoices of a day, in front or behind, leave what is due on it unchanged. */
  lemma FeesOnJoin(c: Company, a: seq<Line>, b: seq<Line>, day: Day)
    requires FeeNumbers(a, day) == [] || FeeNumbers(b, day) == []
    ensures FeesOn(c, a + b, day) == FeesOn(c, if FeeNumbers(b, day) == [] then a else b, day)
  {
    FeeNumbersJoin(a, b, day);
    assert FeeNumbers(a, day) + [] == FeeNumbers(a, day) && [] + FeeNumbers(b, day) == FeeNumbers(b, day);
  }

  lemma EarlierDayStays(c: Company, a: seq<Line>, b: seq<Line>, day: Day, d: Day)
    requires Ordinal(d) < Ordinal(day) && FeesOn(c, a, d) && forall l :: l in b ==> l.date == day
    ensures FeesOn(c, a + b, d)
  {
    NoFees(b, d);
    FeesOnJoin(c, a, b, d);
  }

  lemma NewDayIsDue(c: Company, a: seq<Line>, b: seq<Line>, day: Day)
    requires FeesOn(c, b, day) && forall l :: l in a ==> Ordinal(l.date) < Ordinal(day)
    ensures FeesOn(c, a + b, day)
  {
    NoFees(a, day);
    FeesOnJoin(c, a, b, day);
  }

  lemma DayJoinsInvoices(c: Company, a: seq<Line>, b: seq<Line>, start: Day, day: Day, mid: nat, last: nat)
    requires AllDays(c, a, start, Ordinal(day), mid) && Invoiced(c, a, start, Ordinal(day))
    requires DayLines(c, b, day, mid, last) && NumbersRise(b) && FeesOn(c, b, day)
    ensures Invoiced(c, a + b, start, Ordinal(day) + 1)
  {
    NumbersJoin(a, b, FIRST_ORDER, mid, last);
    NewDayIsDue(c, a, b, day);
    forall d: Day | NoLater(start, d) && Ordinal(d) < Ordinal(day) + 1 ensures FeesOn(c, a + b, d) {
      if Ordinal(d) == Ordinal(day) {
        OrdinalIsInjective(d, day);
      } else {
        EarlierDayStays(c, a, b, day, d);
      }
    }
  }

  ghost predicate SharedOrders(a: seq<Line>, b: seq<Line>) {
    exists l, m :: l in a && m in b && l.order == m.order
  }

  lemma OnePerOrderJoins(a: seq<Line>, b: seq<Line>)
    requires OnePerOrder(a) && OnePerOrder(b) && !SharedOrders(a, b)
    ensures OnePerOrder(a + b)
  {
    forall i, j | 0 <= i < |a| && 0 <= j < |b| ensures a[i].order != b[j].order {
      assert a[i] in a && b[j] in b;
    }
  }

  lemma DayLinesJoin(c: Company, a: seq<Line>, b: seq<Line>, day: Day, after: nat, mid: nat, last: nat)
    requires DayLines(c, a, day, after, mid) && DayLines(c, b, day, mid, last)
    requires forall l :: l in b ==> !l.order.Summary?
    ensures DayLines(c, a + b, day, after, last)
  {
    if OnePerOrder(a) && OnePerOrder(b) {
      OnePerOrderJoins(a, b);
    }
  }

  lemma {:induction false} DayJoinsHistory(c: Company, a: seq<Line>, b: seq<Line>, start: Day, day: Day, mid: nat,
                                           last: nat)
    requires AllDays(c, a, start, Ordinal(day), mid) && DayLines(c, b, day, mid, last) && NoLater(start, day)
    ensures AllDays(c, a + b, start, Ordinal(day) + 1, last)
  {
    if OnePerOrder(a) && OnePerOrder(b) {
      OnePerOrderJoins(a, b);
    }
    DatesJoin(a, b, day);
  }

  lemma DatesJoin(a: seq<Line>, b: seq<Line>, day: Day)
    requires DateOrdered(a) && forall l :: l in a ==> NoLater(l.date, day)
    requires forall l :: l in b ==> l.date == day
    ensures DateOrdered(a + b)
  {
  }

  // ----- One day ---------------------------------------------------------------------------------

  method NewLine(c: Company, day: Day, order: Order, p: Product, qty: real, discount: int) returns (line: Line)
    ensures line == Line(day, order, p, qty, Money(PriceOn(p.priceHistory, day), c.currency), discount,
                         Total(qty, Money(PriceOn(p.priceHistory, day), c.currency), discount, c.currency))
  {
    var current := CurrentPrice(p.priceHistory, day);
    var price := Money(current, c.currency);
    line := Line(day, order, p, qty, price, discount, Total(qty, price, discount, c.currency));
  }

  /** The summary row of a product of which a quantity was sold. */
  function SummaryLine(c: Company, day: Day, p: Product, qty: real): Line {
    var price := Money(PriceOn(p.priceHistory, day), c.currency);
    Line(day, Summary(day), p, qty, price, 0, Total(qty, price, 0, c.currency))
  }

  /** A row for each active product drawn with a positive quantity, in the order of the products. */
  function SummaryLines(c: Company, day: Day, drawn: seq<real>): seq<Line>
    requires |drawn| <= |c.products|
  {
    if drawn == [] then []
    else
      var n := |drawn| - 1;
      var p := c.products[n];
      if Active(p, day) && drawn[n] > 0.0
      then SummaryLines(c, day, drawn[..n]) + [SummaryLine(c, day, p, drawn[n])]
      else SummaryLines(c, day, drawn[..n])
  }

  lemma {:induction false} SummaryLinesAre(c: Company, day: Day, drawn: seq<real>, l: Line)
    requires |drawn| <= |c.products|
    ensures l in SummaryLines(c, day, drawn) <==>
            exists k :: 0 <= k < |drawn| && Active(c.products[k], day) && drawn[k] > 0.0
                        && l == SummaryLine(c, day, c.products[k], drawn[k])
  {
    if drawn != [] {
      var n := |drawn| - 1;
      SummaryLinesAre(c, day, drawn[..n], l);
      assert forall k :: 0 <= k < n ==> drawn[..n][k] == drawn[k];
    }
  }

  /** The restaurant: one summary row per active product that sold anything. */
  method Summaries(c: Company, day: Day, last: nat) returns (rows: seq<Line>, ghost drawn: seq<real>)
    requires c.key == "beit"
    ensures DayLines(c, rows, day, last, last)
    ensures |drawn| == |c.products| && rows == SummaryLines(c, day, drawn)
    ensures forall l :: l in rows ==> l.order.Summary?
  {
    rows, drawn := [], [];
    for n := 0 to |c.products|
      invariant |drawn| == n && rows == SummaryLines(c, day, drawn)
      invariant forall l :: l in rows ==> LineOk(c, l) && l.date == day && l.order == Summary(day)
      invariant forall l :: l in rows ==> l.product in c.products[..n]
      invariant OrdersOk(c, rows)
    {
      var p := c.products[n];
      var qty: real := *;
      assert (drawn + [qty])[..n] == drawn;
      drawn := drawn + [qty];
      if Active(p, day) && qty > 0.0 {
        var line := NewLine(c, day, Summary(day), p, qty, 0);
        AnotherProduct(c, rows, n, line);
        rows := rows + [line];
      }
    }
  }

  lemma AnotherProduct(c: Company, rows: seq<Line>, n: nat, line: Line)
    requires n < |c.products| && line.product == c.products[n] && c.key == "beit"
    requires forall l :: l in rows ==> l.product in c.products[..n]
    requires OrdersOk(c, rows)
    ensures OrdersOk(c, rows + [line])
  {
    if NamesApart(c.products) {
      forall i | 0 <= i < |rows| ensures rows[i].product.nameEn != line.product.nameEn {
        assert rows[i] in rows;
        var j :| 0 <= j < n && c.products[j] == rows[i].product;
      }
    }
  }

  /** `weighted`: some of the active products, those expected to sell. */
  method Weighted(c: Company, day: Day) returns (weighted: seq<Product>)
    ensures forall p :: p in weighted ==> p in c.products && Active(p, day)
  {
    weighted := [];
    for n := 0 to |c.products|
      invariant forall p :: p in weighted ==> p in c.products && Active(p, day)
    {
      var sells: bool := *;
      if Active(c.products[n], day) && sells {
        weighted := weighted + [c.products[n]];
      }
    }
  }

  /** Three fee invoices, numbered one after the other. */
  method Fees(c: Company, day: Day, fee: Product, after: nat) returns (rows: seq<Line>, last: nat)
    requires InvoicesFees(c, day) && FirstFee(c.products) == Some(fee)
    ensures DayLines(c, rows, day, after, last) && last == after + 3 && |rows| == 3
    ensures forall l :: l in rows ==> l.qty == 1.0 && l.total == l.price
    ensures forall i :: 0 <= i < 3 ==> rows[i].order == Retainer(day.year, after + 1 + i)
  {
    rows, last := [], after;
    var price := Money(PriceOn(fee.priceHistory, day), c.currency);
    assert 1.0 * price == price;
    Undiscounted(price);
    MoneyIsStable(PriceOn(fee.priceHistory, day), c.currency);
    for n := 0 to 3
      invariant last == after + n && |rows| == n
      invariant forall i :: 0 <= i < n ==> rows[i].order == Retainer(day.year, after + 1 + i)
      invariant forall l :: l in rows ==> l.qty == 1.0 && l.total == l.price && !l.order.Summary?
      invariant DayLines(c, rows, day, after, last)
    {
      var line := Line(day, Retainer(day.year, last + 1), fee, 1.0, price, 0, price);
      DayLinesJoin(c, rows, [line], day, after, last, last + 1);
      rows, last := rows + [line], last + 1;
    }
  }

  /** The discount drawn for a line. */
  method Discount(c: Company, p: Product, day: Day) returns (discount: int)
    ensures Promoted(c, p, day) ==> discount == 10
    ensures discount == 0 || discount in c.discountPcts || Promoted(c, p, day)
  {
    discount := 0;
    var discounted: bool := *;
    if discounted && c.discountPcts != [] {
      var drawn: nat := *;
      discount := c.discountPcts[drawn % |c.discountPcts|];
    }
    if Promoted(c, p, day) {
      discount := 10;
    }
  }

  predicate OnReceipt(c: Company, line: Line, day: Day, number: nat) {
    LineOk(c, line) && line.date == day && line.order == Receipt(number)
  }

  method ReceiptLine(c: Company, day: Day, number: nat, p: Product) returns (line: Line)
    requires p in c.products && Active(p, day)
    ensures OnReceipt(c, line, day, number) && line.product == p
  {
    var quantity: real := *;
    var qty := if quantity > 0.0 then quantity else 1.0;
    var discount := Discount(c, p, day);
    line := NewLine(c, day, Receipt(number), p, qty, discount);
  }

  predicate NameAmong(products: seq<Product>, name: string) {
    exists i :: 0 <= i < |products| && products[i].nameEn == name
  }

  /** The products drawn, without those whose name was drawn before. */
  function FirstDrawn(drawn: seq<Product>): (r: seq<Product>)
    ensures |r| <= |drawn| && (drawn != [] ==> r != [])
  {
    if drawn == [] then []
    else
      var before := FirstDrawn(drawn[..|drawn| - 1]);
      var last := drawn[|drawn| - 1];
      if NameAmong(drawn[..|drawn| - 1], last.nameEn) then before else before + [last]
  }

  /** These have the names drawn, each once. */
  lemma {:induction false} FirstDrawnAre(drawn: seq<Product>, name: string)
    ensures NameAmong(FirstDrawn(drawn), name) <==> NameAmong(drawn, name)
    ensures NamesApart(FirstDrawn(drawn))
    ensures forall p :: p in FirstDrawn(drawn) ==> p in drawn
  {
    if drawn != [] {
      var init, last := drawn[..|drawn| - 1], drawn[|drawn| - 1];
      FirstDrawnAre(init, name);
      FirstDrawnAre(init, last.nameEn);
      NameAppended(init, last, name);
      NameAppended(FirstDrawn(init), last, name);
      assert init + [last] == drawn;
      if !NameAmong(init, last.nameEn) {
        NamesStayApart(FirstDrawn(init), last);
      }
    }
  }

  lemma NameAppended(products: seq<Product>, p: Product, name: string)
    ensures NameAmong(products + [p], name) <==> NameAmong(products, name) || p.nameEn == name
  {
    var more := products + [p];
    if NameAmong(products, name) {
      var i :| 0 <= i < |products| && products[i].nameEn == name;
      assert more[i].nameEn == name;
    }
    if p.nameEn == name {
      assert more[|products|].nameEn == name;
    }
  }

  lemma NamesStayApart(products: seq<Product>, p: Product)
    requires NamesApart(products) && !NameAmong(products, p.nameEn)
    ensures NamesApart(products + [p])
  {
  }

  function ProductsOf(lines: seq<Line>): (r: seq<Product>)
    ensures |r| == |lines| && forall i :: 0 <= i < |r| ==> r[i] == lines[i].product
  {
    seq(|lines|, i requires 0 <= i < |lines| => lines[i].product)
  }

  /** One receipt of `count` draws; a product already chosen is skipped. */
  method OneReceipt(c: Company, day: Day, weighted: seq<Product>, number: nat, count: nat)
    returns (rows: seq<Line>, ghost drawn: seq<Product>)
    requires number > 0 && weighted != [] && forall p :: p in weighted ==> p in c.products && Active(p, day)
    ensures |drawn| == count && (forall p :: p in drawn ==> p in weighted) && ProductsOf(rows) == FirstDrawn(drawn)
    ensures DayLines(c, rows, day, number - 1, number)
    ensures OnePerOrder(rows) && forall l :: l in rows ==> l.order == Receipt(number)
  {
    rows, drawn := [], [];
    var chosen: set<string> := {};
    for n := 0 to count
      invariant |drawn| == n && (forall p :: p in drawn ==> p in weighted) && ProductsOf(rows) == FirstDrawn(drawn)
      invariant forall name :: name in chosen <==> NameAmong(drawn, name)
      invariant forall l :: l in rows ==> OnReceipt(c, l, day, number)
    {
      var k: nat := *;
      var p := weighted[k % |weighted|];
      DrawnNext(drawn, p, chosen);
      if p.nameEn !in chosen {
        var line := ReceiptLine(c, day, number, p);
        assert ProductsOf(rows + [line]) == ProductsOf(rows) + [p];
        rows := rows + [line];
      }
      chosen, drawn := chosen + {p.nameEn}, drawn + [p];
    }
    DrawnAreOnePerOrder(rows, drawn);
  }

  lemma DrawnNext(drawn: seq<Product>, p: Product, chosen: set<string>)
    requires forall name :: name in chosen <==> NameAmong(drawn, name)
    ensures FirstDrawn(drawn + [p]) == if p.nameEn in chosen then FirstDrawn(drawn) else FirstDrawn(drawn) + [p]
    ensures forall name :: name in chosen + {p.nameEn} <==> NameAmong(drawn + [p], name)
  {
    assert (drawn + [p])[..|drawn|] == drawn;
    forall name ensures name in chosen + {p.nameEn} <==> NameAmong(drawn + [p], name) {
      NameAppended(drawn, p, name);
    }
  }

  lemma DrawnAreOnePerOrder(rows: seq<Line>, drawn: seq<Product>)
    requires ProductsOf(rows) == FirstDrawn(drawn)
    ensures OnePerOrder(rows)
  {
    FirstDrawnAre(drawn, "");
    forall i, j | 0 <= i < j < |rows| ensures rows[i].product.nameEn != rows[j].product.nameEn {
      assert ProductsOf(rows)[i].nameEn != ProductsOf(rows)[j].nameEn;
    }
  }

  /** `randint(*lines_per_receipt)`; any number when the range is empty. */
  method DrawCount(c: Company) returns (count: nat)
    ensures c.linesPerReceipt.0 <= c.linesPerReceipt.1 ==> c.linesPerReceipt.0 <= count <= c.linesPerReceipt.1
  {
    count := *;
    if c.linesPerReceipt.0 <= c.linesPerReceipt.1 && !(c.linesPerReceipt.0 <= count <= c.linesPerReceipt.1) {
      count := c.linesPerReceipt.0;
    }
  }

  lemma ReceiptUses(c: Company, receipt: seq<Line>, drawn: seq<Product>, after: nat)
    requires ProductsOf(receipt) == FirstDrawn(drawn) && forall l :: l in receipt ==> l.order == Receipt(after + 1)
    requires Ranged(c) ==> drawn != []
    ensures AllUsed(c, receipt, after, after + 1)
  {
    if Ranged(c) {
      assert receipt[0] in receipt;
      assert Uses(receipt, after + 1);
    }
  }

  method Receipts(c: Company, day: Day, weighted: seq<Product>, after: nat, receipts: nat)
    returns (rows: seq<Line>, last: nat)
    requires weighted != [] && forall p :: p in weighted ==> p in c.products && Active(p, day)
    ensures DayLines(c, rows, day, after, last) && last == after + receipts
    ensures NumbersRise(rows) && AllUsed(c, rows, after, last) && forall l :: l in rows ==> l.order.Receipt?
  {
    rows, last := [], after;
    for n := 0 to receipts
      invariant last == after + n && DayLines(c, rows, day, after, last) && AllUsed(c, rows, after, last)
      invariant NumbersRise(rows) && forall l :: l in rows ==> l.order.Receipt?
    {
      var count := DrawCount(c);
      ghost var drawn;
      var receipt;
      receipt, drawn := OneReceipt(c, day, weighted, last + 1, count);
      DayLinesJoin(c, rows, receipt, day, after, last, last + 1);
      NumbersJoin(rows, receipt, after, last, last + 1);
      ReceiptUses(c, receipt, drawn, last);
      AllUsedJoin(c, rows, receipt, after, last, last + 1);
      rows, last := rows + receipt, last + 1;
    }
  }

  /** The invoices of a first of the month, and nothing else. */
  lemma FeesAreDue(c: Company, rows: seq<Line>, day: Day, after: nat)
    requires InvoicesFees(c, day) && |rows| == 3
    requires forall i :: 0 <= i < 3 ==> rows[i].date == day && rows[i].order == Retainer(day.year, after + 1 + i)
    ensures NumbersRise(rows) && FeesOn(c, rows, day) && NoGaps(rows, after, after + 3)
  {
    forall n: nat | after < n <= after + 3 ensures Uses(rows, n) {
      assert rows[n - after - 1] in rows;
    }
    assert rows == [rows[0], rows[1], rows[2]];
    assert rows[1..] == [rows[1], rows[2]] && rows[1..][1..] == [rows[2]] && rows[1..][1..][1..] == [];
    assert FeeNumbers(rows[1..][1..], day) == [after + 3];
    assert FeeNumbers(rows[1..], day) == [after + 2, after + 3];
    assert Consecutive(FeeNumbers(rows, day), after);
  }

  /** The invoices due on a day, or none. */
  method DueFees(c: Company, day: Day, after: nat) returns (rows: seq<Line>, last: nat, found: bool)
    requires c.key != "beit"
    ensures found <==> !(InvoicesFees(c, day) && FirstFee(c.products).None?)
    ensures found ==> DayLines(c, rows, day, after, last) && NumbersRise(rows) && FeesOn(c, rows, day)
    ensures found ==> AllUsed(c, rows, after, last)
  {
    rows, last, found := [], after, true;
    if InvoicesFees(c, day) {
      var fee := FirstFee(c.products);
      if fee.None? {
        found := false;
        return;
      }
      rows, last := Fees(c, day, fee.value, after);
      FeesAreDue(c, rows, day, after);
    }
  }

  /** A day's receipts come after its invoices. */
  lemma ReceiptsFollow(c: Company, fees: seq<Line>, receipts: seq<Line>, day: Day, after: nat, mid: nat, last: nat)
    requires DayLines(c, fees, day, after, mid) && NumbersRise(fees) && FeesOn(c, fees, day)
    requires DayLines(c, receipts, day, mid, last) && NumbersRise(receipts)
    requires forall l :: l in receipts ==> l.order.Receipt?
    ensures DayLines(c, fees + receipts, day, after, last) && NumbersRise(fees + receipts)
            && FeesOn(c, fees + receipts, day)
  {
    DayLinesJoin(c, fees, receipts, day, after, mid, last);
    NumbersJoin(fees, receipts, after, mid, last);
    NoFees(receipts, day);
    FeesOnJoin(c, fees, receipts, day);
  }

  /** One turn of the loop; `found` is false when the fee product is missing. */
  method OneDay(c: Company, day: Day, after: nat) returns (rows: seq<Line>, last: nat, found: bool)
    ensures found <==> !(InvoicesFees(c, day) && FirstFee(c.products).None?)
    ensures found ==> DayLines(c, rows, day, after, last) && NumbersRise(rows) && FeesOn(c, rows, day)
    ensures found ==> AllUsed(c, rows, after, last)
  {
    if c.key == "beit" {
      ghost var drawn;
      rows, drawn := Summaries(c, day, after);
      NoFees(rows, day);
      return rows, after, true;
    }
    rows, last, found := DueFees(c, day, after);
    if !found {
      return;
    }
    var weighted := Weighted(c, day);
    if weighted != [] {
      var receipts: nat := *;
      var more, next := Receipts(c, day, weighted, last, receipts);
      ReceiptsFollow(c, rows, more, day, after, last, next);
      AllUsedJoin(c, rows, more, after, last, next);
      rows, last := rows + more, next;
    }
  }

  // ----- The history -----------------------------------------------------------------------------

  /** The lines, `StopIteration` for a missing fee product, or `OverflowError` after the last day of the calendar. */
  datatype Generated = Lines(lines: seq<Line>) | StopIteration | OverflowError

  predicate FeeMissing(c: Company) {
    c.key == "clarity" && FirstFee(c.products).None?
  }

  method NextDay(day: Day) returns (next: Option<Day>)
    ensures next.None? <==> Ordinal(day) == MAX_ORDINAL
    ensures next.Some? ==> Ordinal(next.value) == Ordinal(day) + 1 <= MAX_ORDINAL
  {
    OrdinalInRange(day);
    AddDaysMovesOrdinal(day, 1);
    next := AddDays(day, 1);
  }

  method Turn(c: Company, lines: seq<Line>, start: Day, day: Day, orders: nat)
    returns (longer: seq<Line>, last: nat, found: bool)
    requires AllDays(c, lines, start, Ordinal(day), orders) && Invoiced(c, lines, start, Ordinal(day))
             && NoLater(start, day) && AllUsed(c, lines, FIRST_ORDER, orders)
    ensures found <==> !(InvoicesFees(c, day) && FirstFee(c.products).None?)
    ensures found ==> AllDays(c, longer, start, Ordinal(day) + 1, last) && Invoiced(c, longer, start, Ordinal(day) + 1)
    ensures found ==> AllUsed(c, longer, FIRST_ORDER, last)
  {
    var rows;
    rows, last, found := OneDay(c, day, orders);
    if found {
      DayJoinsHistory(c, lines, rows, start, day, orders, last);
      DayJoinsInvoices(c, lines, rows, start, day, orders, last);
      AllUsedJoin(c, lines, rows, FIRST_ORDER, orders, last);
    }
    longer := lines + rows;
  }

  /** The loop over the days, from a first of the month on. */
  method GenerateFrom(c: Company, start: Day, end: Day) returns (made: Generated, orders: nat)
    requires start.day == 1 && NoLater(start, end)
    ensures made.Lines? ==> AllDays(c, made.lines, start, Ordinal(end) + 1, orders)
    ensures made.Lines? ==> Invoiced(c, made.lines, start, Ordinal(end) + 1)
    ensures made.Lines? ==> AllUsed(c, made.lines, FIRST_ORDER, orders)
    ensures made.StopIteration? <==> FeeMissing(c)
    ensures made.OverflowError? <==> !FeeMissing(c) && Ordinal(end) == MAX_ORDINAL
  {
    var lines: seq<Line> := [];
    orders := FIRST_ORDER;
    var day := start;
    OrdinalInRange(end);
    while NoLater(day, end)
      invariant NoLater(start, day) && Ordinal(day) <= Ordinal(end) + 1
      invariant AllDays(c, lines, start, Ordinal(day), orders) && Invoiced(c, lines, start, Ordinal(day))
      invariant Ordinal(day) <= MAX_ORDINAL && AllUsed(c, lines, FIRST_ORDER, orders)
      invariant day == start || !FeeMissing(c)
      decreases Ordinal(end) - Ordinal(day)
    {
      var found;
      lines, orders, found := Turn(c, lines, start, day, orders);
      if !found {
        return StopIteration, orders;
      }
      var next := NextDay(day);
      if next.None? {
        return OverflowError, orders;
      }
      day := next.value;
    }
    return Lines(lines), orders;
  }

  /** `generate_sales`. */
  method GenerateSales(c: Company, end: Day) returns (made: Generated, orders: nat)
    ensures made.Lines? ==> AllDays(c, made.lines, HISTORY_START, Ordinal(end) + 1, orders)
    ensures made.Lines? ==> Invoiced(c, made.lines, HISTORY_START, Ordinal(end) + 1)
    ensures made.Lines? ==> AllUsed(c, made.lines, FIRST_ORDER, orders)
    ensures made.StopIteration? <==> FeeMissing(c) && NoLater(HISTORY_START, end)
    ensures made.OverflowError? <==> !FeeMissing(c) && NoLater(HISTORY_START, end) && Ordinal(end) == MAX_ORDINAL
  {
    if NoLater(HISTORY_START, end) {
      made, orders := GenerateFrom(c, HISTORY_START, end);
    } else {
      made, orders := Lines([]), FIRST_ORDER;
    }
  }
}
