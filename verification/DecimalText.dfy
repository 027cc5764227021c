/**
 Printing decimals for the exports: plain digits, no exponent, no trailing zeros, either decimal mark.

 `Decimal` is Python's non-negative finite decimal, a coefficient and an exponent. Of that library only
 two facts are used: `format(x, "f")` prints x in plain digits with as many decimals as its exponent
 asks for, and `normalize` rounds to the context's 28 significant digits, half to even.
 */
module DecimalText {

  datatype Decimal = Decimal(coef: nat, exp: int)

  const PRECISION: nat := 28

  function Pow10(n: nat): (r: nat)
    ensures r >= 1
  {
    if n == 0 then 1 else 10 * Pow10(n - 1)
  }

  /** The same number, compared at the smaller exponent. */
  predicate SameValue(a: Decimal, b: Decimal) {
    if a.exp >= b.exp then a.coef * Pow10(a.exp - b.exp) == b.coef else a.coef == b.coef * Pow10(b.exp - a.exp)
  }

  /** The number without its last k digits. */
  function High(n: nat, k: nat): nat {
    if k == 0 then n else High(n / 10, k - 1)
  }

  /** The number made of its last k digits. */
  function Low(n: nat, k: nat): (r: nat)
    ensures r < Pow10(k)
  {
    if k == 0 then 0 else 10 * Low(n / 10, k - 1) + n % 10
  }

  function Places(d: Decimal): nat {
    if d.exp >= 0 then 0 else -d.exp
  }

  /** The integer part. */
  function Whole(d: Decimal): nat {
    if d.exp >= 0 then Scaled(d.coef, d.exp) else High(d.coef, Places(d))
  }

  function Scaled(n: nat, k: nat): nat
    decreases k
  {
    if k == 0 then n else Scaled(10 * n, k - 1)
  }

  /** `value == value.to_integral()`. */
  predicate Integral(d: Decimal) {
    Low(d.coef, Places(d)) == 0
  }

  function Digit(n: nat): (c: char)
    requires n < 10
    ensures '0' <= c <= '9' && DigitValue(c) == n
  {
    '0' + n as char
  }

  function DigitValue(c: char): nat {
    if '0' <= c <= '9' then c as int - '0' as int else 0
  }

  predicate AllDigits(s: string) {
    forall i :: 0 <= i < |s| ==> '0' <= s[i] <= '9'
  }

  function Digits(n: nat): (r: string)
    ensures r != [] && AllDigits(r) && (|r| > 1 ==> r[0] != '0') && (n > 0 ==> r[0] != '0')
  {
    if n < 10 then [Digit(n)] else Digits(n / 10) + [Digit(n % 10)]
  }

  /** The last `places` digits of n, zeros included. */
  function Fraction(n: nat, places: nat): (r: string)
    ensures |r| == places && AllDigits(r)
  {
    if places == 0 then [] else Fraction(n / 10, places - 1) + [Digit(n % 10)]
  }

  function ToNat(s: string): nat {
    if s == [] then 0 else 10 * ToNat(s[..|s| - 1]) + DigitValue(s[|s| - 1])
  }

  /** `str.rstrip` of one character. */
  function RStrip(s: string, c: char): string {
    if s != [] && s[|s| - 1] == c then RStrip(s[..|s| - 1], c) else s
  }

  function Replace(s: string, from: char, to: char): (r: string)
    ensures |r| == |s|
    ensures forall i :: 0 <= i < |s| ==> r[i] == if s[i] == from then to else s[i]
  {
    seq(|s|, i requires 0 <= i < |s| => if s[i] == from then to else s[i])
  }

  /** Digits to drop so that the context's precision is left. */
  function Excess(n: nat): nat {
    if |Digits(n)| <= PRECISION then 0 else |Digits(n)| - PRECISION
  }

  /** Rounding away the last k digits, half to even. */
  function RoundedTo(n: nat, k: nat): nat {
    var q, r := High(n, k), Low(n, k);
    if 2 * r > Pow10(k) || (2 * r == Pow10(k) && q % 2 == 1) then Scaled(q + 1, k) else Scaled(q, k)
  }

  function Rounded(n: nat): nat {
    RoundedTo(n, Excess(n))
  }

  /** The text before the decimal mark is chosen. */
  function Plain(d: Decimal): string {
    if Integral(d) then Digits(Rounded(Whole(d)))
    else RStrip(RStrip(Digits(Whole(d)) + "." + Fraction(d.coef, Places(d)), '0'), '.')
  }

  /** `_num`. */
  function Num(d: Decimal, comma: bool): string {
    if comma then Replace(Plain(d), '.', ',') else Plain(d)
  }

  function Mark(comma: bool): char {
    if comma then ',' else '.'
  }

  /** The position of a character, or the length. */
  function Find(s: string, c: char): (i: nat)
    ensures i <= |s| && (i < |s| ==> s[i] == c) && (forall j :: 0 <= j < i ==> s[j] != c)
  {
    if s == [] || s[0] == c then 0 else 1 + Find(s[1..], c)
  }

  /** Reading a plain decimal back. */
  function Parse(s: string, mark: char): Decimal {
    var i := Find(s, mark);
    if i == |s| then Decimal(ToNat(s), 0) else Decimal(ToNat(s[..i] + s[i + 1..]), -(|s| - i - 1))
  }

  // ----- Numbers ---------------------------------------------------------------------------------

  lemma {:induction false} ScaledIsProduct(n: nat, k: nat)
    ensures Scaled(n, k) == n * Pow10(k)
    decreases k
  {
    if k > 0 {
      ScaledIsProduct(10 * n, k - 1);
      Associate(n, Pow10(k - 1));
    }
  }

  lemma Associate(n: nat, p: nat)
    ensures (10 * n) * p == n * (10 * p) == 10 * (n * p)
  {
  }

  lemma Cancel(a: nat, b: nat, p: nat)
    requires p >= 1
    ensures a * p == b * p <==> a == b
  {
    if a < b {
      assert (b - a) * p >= 1;
    } else if b < a {
      assert (a - b) * p >= 1;
    }
  }

  /** `High` and `Low` are quotient and remainder by a power of ten. */
  lemma {:induction false} HighAndLow(n: nat, k: nat)
    ensures n == High(n, k) * Pow10(k) + Low(n, k)
  {
    if k > 0 {
      HighAndLow(n / 10, k - 1);
      Associate(High(n / 10, k - 1), Pow10(k - 1));
    }
  }

  /** Rounding keeps exactly the numbers whose dropped digits are all zero. */
  lemma RoundedToKeeps(n: nat, k: nat)
    ensures RoundedTo(n, k) == n <==> Low(n, k) == 0
  {
    var q, r := High(n, k), Low(n, k);
    HighAndLow(n, k);
    ScaledIsProduct(q, k);
    ScaledIsProduct(q + 1, k);
    assert (q + 1) * Pow10(k) == q * Pow10(k) + Pow10(k);
  }

  lemma {:induction false} DigitCount(n: nat, k: nat)
    requires n < Pow10(k) && k >= 1
    ensures |Digits(n)| <= k
  {
    if n >= 10 {
      DigitCount(n / 10, k - 1);
    }
  }

  // ----- Texts -----------------------------------------------------------------------------------

  lemma {:induction false} ToNatConcat(a: string, b: string)
    ensures ToNat(a + b) == ToNat(a) * Pow10(|b|) + ToNat(b)
  {
    if b == [] {
      assert a + b == a;
    } else {
      var n := |b| - 1;
      assert (a + b)[..|a + b| - 1] == a + b[..n];
      ToNatConcat(a, b[..n]);
      Associate(ToNat(a), Pow10(n));
    }
  }

  lemma {:induction false} DigitsRead(n: nat)
    ensures ToNat(Digits(n)) == n
  {
    if n < 10 {
      assert ToNat([]) == 0;
    } else {
      DigitsRead(n / 10);
      assert Digits(n)[..|Digits(n)| - 1] == Digits(n / 10);
    }
  }

  lemma {:induction false} FractionRead(n: nat, places: nat)
    ensures ToNat(Fraction(n, places)) == Low(n, places)
  {
    if places > 0 {
      FractionRead(n / 10, places - 1);
      assert Fraction(n, places)[..places - 1] == Fraction(n / 10, places - 1);
    }
  }

  /** The unmarked digits of a non-integral decimal spell its coefficient. */
  lemma DigitsOfCoefficient(d: Decimal)
    requires d.exp < 0
    ensures ToNat(Digits(Whole(d)) + Fraction(d.coef, Places(d))) == d.coef
  {
    ToNatConcat(Digits(Whole(d)), Fraction(d.coef, Places(d)));
    DigitsRead(Whole(d));
    FractionRead(d.coef, Places(d));
    HighAndLow(d.coef, Places(d));
  }

  /** Dropping trailing zeros divides by the matching power of ten. */
  lemma {:induction false} StripZeros(head: string, tail: string)
    requires ToNat(tail) != 0
    ensures RStrip(head + tail, '0') == head + RStrip(tail, '0')
    ensures var kept := RStrip(tail, '0');
      kept != [] && kept[|kept| - 1] != '0' && kept <= tail
        && ToNat(head + tail) == ToNat(head + kept) * Pow10(|tail| - |kept|)
    decreases |tail|
  {
    var n := |tail| - 1;
    assert (head + tail)[..|head + tail| - 1] == head + tail[..n];
    if tail[n] == '0' {
      StripZeros(head, tail[..n]);
      var kept := RStrip(tail[..n], '0');
      Associate(ToNat(head + kept), Pow10(n - |kept|));
    } else {
      assert Pow10(0) == 1;
    }
  }

  /** What `_num` prints when there is a fractional part. */
  function FractionalText(d: Decimal): (r: string)
    ensures |r| <= Places(d) && AllDigits(r)
  {
    StripPrefix(Fraction(d.coef, Places(d)), '0');
    RStrip(Fraction(d.coef, Places(d)), '0')
  }

  lemma {:induction false} StripPrefix(s: string, c: char)
    ensures RStrip(s, c) <= s
  {
    if s != [] && s[|s| - 1] == c {
      StripPrefix(s[..|s| - 1], c);
    }
  }

  lemma StripKeepsEnd(s: string, c: char)
    requires s != [] && s[|s| - 1] != c
    ensures RStrip(s, c) == s
  {
  }

  lemma KeptDigits(d: Decimal)
    requires !Integral(d)
    ensures FractionalText(d) != [] && FractionalText(d)[|FractionalText(d)| - 1] != '0'
    ensures forall head: string ::
      RStrip(head + Fraction(d.coef, Places(d)), '0') == head + FractionalText(d)
  {
    var tail := Fraction(d.coef, Places(d));
    FractionRead(d.coef, Places(d));
    forall head: string ensures RStrip(head + tail, '0') == head + RStrip(tail, '0') {
      StripZeros(head, tail);
    }
    StripZeros([], tail);
  }

  lemma PlainWithFraction(d: Decimal)
    requires !Integral(d)
    ensures Plain(d) == Digits(Whole(d)) + "." + FractionalText(d)
  {
    KeptDigits(d);
    var head := Digits(Whole(d)) + ".";
    assert RStrip(head + Fraction(d.coef, Places(d)), '0') == head + FractionalText(d);
    StripKeepsEnd(head + FractionalText(d), '.');
  }

  lemma NumWithFraction(d: Decimal, comma: bool)
    requires !Integral(d)
    ensures Num(d, comma) == Digits(Whole(d)) + [Mark(comma)] + FractionalText(d)
  {
    PlainWithFraction(d);
  }

  lemma NumWithoutFraction(d: Decimal, comma: bool)
    requires Integral(d)
    ensures Num(d, comma) == Digits(Rounded(Whole(d)))
  {
    assert Num(d, comma) == Plain(d);
  }

  lemma {:induction false} FindSkips(a: string, c: char, b: string)
    requires AllDigits(a) && !('0' <= c <= '9')
    ensures Find(a + [c] + b, c) == |a|
  {
    var i := Find(a + [c] + b, c);
    assert (a + [c] + b)[|a|] == c;
    assert forall j :: 0 <= j < |a| ==> (a + [c] + b)[j] == a[j];
  }

  // ----- Reading back what was printed -----------------------------------------------------------

  lemma ReadWhole(d: Decimal, comma: bool)
    requires Integral(d)
    ensures Parse(Num(d, comma), Mark(comma)) == Decimal(Rounded(Whole(d)), 0)
  {
    NumWithoutFraction(d, comma);
    DigitsRead(Rounded(Whole(d)));
  }

  lemma WholeIsTheValue(d: Decimal)
    requires Integral(d)
    ensures forall n: nat :: SameValue(Decimal(n, 0), d) <==> n == Whole(d)
  {
    forall n: nat ensures SameValue(Decimal(n, 0), d) <==> n == Whole(d) {
      if d.exp >= 0 {
        ScaledIsProduct(d.coef, d.exp);
        assert Pow10(0) == 1;
      } else {
        HighAndLow(d.coef, Places(d));
        Cancel(n, Whole(d), Pow10(Places(d)));
      }
    }
  }

  lemma ReadMarked(whole: string, mark: char, kept: string)
    requires AllDigits(whole) && !('0' <= mark <= '9')
    ensures Parse(whole + [mark] + kept, mark) == Decimal(ToNat(whole + kept), -|kept|)
  {
    var text := whole + [mark] + kept;
    FindSkips(whole, mark, kept);
    assert text[..|whole|] == whole && text[|whole| + 1..] == kept;
  }

  /** The kept digits, scaled by the zeros that were dropped, are the coefficient. */
  lemma KeptDigitsScale(d: Decimal)
    requires !Integral(d)
    ensures ToNat(Digits(Whole(d)) + FractionalText(d)) * Pow10(Places(d) - |FractionalText(d)|) == d.coef
  {
    var head, tail := Digits(Whole(d)), Fraction(d.coef, Places(d));
    assert ToNat(head + tail) == d.coef by { DigitsOfCoefficient(d); }
    assert ToNat(tail) != 0 by { FractionRead(d.coef, Places(d)); }
    StripZeros(head, tail);
  }

  lemma ReadFraction(d: Decimal, comma: bool)
    requires !Integral(d)
    ensures SameValue(Parse(Num(d, comma), Mark(comma)), d)
  {
    NumWithFraction(d, comma);
    ReadMarked(Digits(Whole(d)), Mark(comma), FractionalText(d));
    KeptDigitsScale(d);
  }

  /**
   Reading the printed text gives the value back, whatever the mark, except that an integral value
   must fit the decimal context: `normalize` rounds it to 28 significant digits first.
   */
  lemma RoundTripExactlyWhen(d: Decimal, comma: bool)
    ensures SameValue(Parse(Num(d, comma), Mark(comma)), d) <==>
            (!Integral(d) || Low(Whole(d), Excess(Whole(d))) == 0)
  {
    if Integral(d) {
      ReadWhole(d, comma);
      WholeIsTheValue(d);
      RoundedToKeeps(Whole(d), Excess(Whole(d)));
    } else {
      ReadFraction(d, comma);
    }
  }

  /** Every value below ten to the twenty-eighth survives. */
  lemma RoundTripBelowPrecision(d: Decimal, comma: bool)
    requires Whole(d) < Pow10(PRECISION)
    ensures SameValue(Parse(Num(d, comma), Mark(comma)), d)
  {
    DigitCount(Whole(d), PRECISION);
    RoundTripExactlyWhen(d, comma);
  }

  /** A number that does not: thirty digits, of which the last is not zero. */
  lemma LongIntegerIsRounded()
    ensures var d := Decimal(Pow10(PRECISION + 1) + 1, 0); !SameValue(Parse(Num(d, false), '.'), d)
  {
    LongIntegersAreRounded(PRECISION + 1, Pow10(PRECISION + 1) + 1);
  }

  lemma LongIntegersAreRounded(places: nat, n: nat)
    requires places >= PRECISION && n == Pow10(places) + 1
    ensures !SameValue(Parse(Num(Decimal(n, 0), false), '.'), Decimal(n, 0))
  {
    LongIntegersLose(places, n);
    RoundTripExactlyWhen(Decimal(n, 0), false);
  }

  lemma LongIntegersLose(places: nat, n: nat)
    requires places >= PRECISION && n == Pow10(places) + 1
    ensures var d := Decimal(n, 0); Integral(d) && Low(Whole(d), Excess(Whole(d))) != 0
  {
    PowerDigits(places);
    LowOfOne(places, Excess(n));
  }

  lemma {:induction false} PowerDigits(k: nat)
    requires k >= 1
    ensures |Digits(Pow10(k) + 1)| == k + 1
  {
    if k == 1 {
      assert Pow10(0) == 1;
    } else {
      PowerDigitsPlain(k - 1);
    }
  }

  lemma {:induction false} PowerDigitsPlain(k: nat)
    ensures |Digits(Pow10(k))| == k + 1
  {
    if k > 0 {
      PowerDigitsPlain(k - 1);
    }
  }

  lemma LowOfOne(m: nat, k: nat)
    requires 1 <= m && 1 <= k
    ensures Low(Pow10(m) + 1, k) != 0
  {
  }

  // ----- One text per value ----------------------------------------------------------------------

  /** Writing the same number with one more stored decimal. */
  lemma OneMorePlace(a: Decimal, b: Decimal)
    requires b.coef == 10 * a.coef && b.exp == a.exp - 1
    ensures Plain(a) == Plain(b)
  {
    if a.exp > 0 {
      assert Scaled(a.coef, a.exp) == Scaled(b.coef, b.exp);
    } else {
      assert b.coef / 10 == a.coef;
      assert High(b.coef, Places(b)) == High(a.coef, Places(a));
      assert Low(b.coef, Places(b)) == 10 * Low(a.coef, Places(a));
      var text := Digits(Whole(a)) + "." + Fraction(a.coef, Places(a));
      assert Digits(Whole(b)) + "." + Fraction(b.coef, Places(b)) == text + "0";
      assert (text + "0")[..|text|] == text;
    }
  }

  lemma {:induction false} MorePlaces(a: Decimal, b: Decimal, k: nat)
    requires b.coef == a.coef * Pow10(k) && b.exp == a.exp - k
    ensures Plain(a) == Plain(b)
    decreases k
  {
    if k == 0 {
      TimesOne(a.coef);
    } else {
      var next := Decimal(10 * a.coef, a.exp - 1);
      OneMorePlace(a, next);
      Associate(a.coef, Pow10(k - 1));
      MorePlaces(next, b, k - 1);
    }
  }

  lemma TimesOne(n: nat)
    ensures n * Pow10(0) == n
  {
  }

  /** Equal values print identically, whatever their stored exponent. */
  lemma EqualValuesPrintAlike(a: Decimal, b: Decimal, comma: bool)
    requires SameValue(a, b)
    ensures Num(a, comma) == Num(b, comma)
  {
    if a.exp >= b.exp {
      MorePlaces(a, b, a.exp - b.exp);
    } else {
      MorePlaces(b, a, b.exp - a.exp);
    }
  }

  /** Digits with at most one mark between two digits, no superfluous zero at either end. */
  ghost predicate Canonical(s: string, mark: char) {
    var i := Find(s, mark);
    && i > 0
    && AllDigits(s[..i])
    && (s[0] == '0' ==> i == 1)
    && (i < |s| ==> i + 1 < |s| && AllDigits(s[i + 1..]) && s[|s| - 1] != '0')
  }

  lemma MarkedIsCanonical(whole: string, mark: char, kept: string)
    requires AllDigits(whole) && AllDigits(kept) && !('0' <= mark <= '9')
    requires whole != [] && (|whole| > 1 ==> whole[0] != '0')
    requires kept != [] && kept[|kept| - 1] != '0'
    ensures Canonical(whole + [mark] + kept, mark)
  {
    var text := whole + [mark] + kept;
    FindSkips(whole, mark, kept);
    assert text[..|whole|] == whole && text[|whole| + 1..] == kept;
  }

  /** Plain digits, at most one mark, and nothing superfluous: for every value and either mark. */
  lemma NumIsCanonical(d: Decimal, comma: bool)
    ensures Canonical(Num(d, comma), Mark(comma))
  {
    if Integral(d) {
      NumWithoutFraction(d, comma);
      var s := Digits(Rounded(Whole(d)));
      assert Find(s, Mark(comma)) == |s| && s[..|s|] == s;
    } else {
      KeptDigits(d);
      NumWithFraction(d, comma);
      MarkedIsCanonical(Digits(Whole(d)), Mark(comma), FractionalText(d));
    }
  }
}
