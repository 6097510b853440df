/**
 * The fractionalize form: the fields a user fills in to split an NFT into
 * fungible fractions (fraction name, symbol, fraction count, reserve price),
 * the derived fraction price and its remainder, the validation flags and
 * the rule that disables the submit button.
 */
module Fractionalize {
  import opened Common

  const MaxNameLength: nat := 40
  const DefaultFractions: nat := 1000000
  /** The fraction counts the select offers. */
  const FractionOptions: seq<nat> := [10, 100, 1000, 10000, 100000, 1000000]

  // ---------------------------------------------------------------------
  // Character classes and the two input patterns
  // ---------------------------------------------------------------------

  predicate IsAsciiLetter(c: char)
  {
    'a' <= c <= 'z' || 'A' <= c <= 'Z'
  }

  /** The characters `\s` matches in a JavaScript regular expression. */
  predicate IsRegexSpace(c: char)
  {
    c == ' ' || c == '\t' || c == '\n' || c == '\r' || c == '\U{000B}' || c == '\U{000C}'
    || c == '\U{00A0}' || c == '\U{1680}' || ('\U{2000}' <= c <= '\U{200A}')
    || c == '\U{2028}' || c == '\U{2029}' || c == '\U{202F}' || c == '\U{205F}'
    || c == '\U{3000}' || c == '\U{FEFF}'
  }

  /** `/^[a-zA-Z\s]*$/` */
  predicate LettersOnly(s: string)
  {
    forall i :: 0 <= i < |s| ==> IsAsciiLetter(s[i]) || IsRegexSpace(s[i])
  }

  function UpperChar(c: char): char
  {
    if 'a' <= c <= 'z' then (c as int - 32) as char else c
  }

  function Upper(s: string): (r: string)
    ensures |r| == |s|
    ensures forall i :: 0 <= i < |s| ==> r[i] == UpperChar(s[i])
  {
    seq(|s|, i requires 0 <= i < |s| => UpperChar(s[i]))
  }

  /** A symbol as the form stores it: letters upper-cased, whitespace kept. */
  predicate StoredSymbol(s: string)
  {
    forall i :: 0 <= i < |s| ==> ('A' <= s[i] <= 'Z') || IsRegexSpace(s[i])
  }

  /** Upper-casing an accepted symbol gives a stored symbol of the same length. */
  lemma UpperOfLettersIsStored(s: string)
    requires LettersOnly(s)
    ensures StoredSymbol(Upper(s)) && |Upper(s)| == |s|
  {
  }

  /** `/^\d+([.]\d{0,18})?$/`: digits, optionally a dot and at most 18 more digits. */
  predicate PricePattern(s: string)
  {
    var i := FirstIndex(s, '.');
    i >= 1 && AllDigits(s[..i])
    && (i < |s| ==> AllDigits(s[i + 1..]) && |s| - i - 1 <= 18)
  }

  /** A price string put together from an integer part and an optional fraction part. */
  function PriceText(whole: string, dot: bool, frac: string): string
  {
    whole + (if dot then "." + frac else "")
  }

  lemma {:induction false} DigitsHaveNoDot(s: string)
    requires AllDigits(s)
    ensures FirstIndex(s, '.') == |s|
  {
    if s != [] {
      assert s[0] != '.' by { assert IsDigit(s[0]); }
      DigitsHaveNoDot(s[1..]);
    }
  }

  /** Every well-formed price text is accepted by the pattern. */
  lemma PricePatternAccepts(whole: string, dot: bool, frac: string)
    requires |whole| >= 1 && AllDigits(whole)
    requires AllDigits(frac) && |frac| <= 18
    requires !dot ==> frac == ""
    ensures PricePattern(PriceText(whole, dot, frac))
  {
    var s := PriceText(whole, dot, frac);
    DigitsHaveNoDot(whole);
    FirstIndexPrefix(whole, if dot then "." + frac else "", '.');
    if dot {
      assert s[|whole|] == '.';
      assert s[|whole| + 1..] == frac;
    }
    assert s[..FirstIndex(s, '.')] == whole;
  }

  lemma {:induction false} FirstIndexPrefix(a: string, b: string, c: char)
    requires FirstIndex(a, c) == |a|
    ensures FirstIndex(a + b, c) == |a| + FirstIndex(b, c)
    decreases |a|
  {
    if a != [] {
      assert a[0] != c;
      assert (a + b)[1..] == a[1..] + b;
      FirstIndexPrefix(a[1..], b, c);
    } else {
      assert a + b == b;
    }
  }

  /** Every string the pattern accepts is such a price text: the pattern and `PriceText` agree. */
  lemma PricePatternSplits(s: string)
    requires PricePattern(s)
    ensures FirstIndex(s, '.') < |s| ==>
      s == PriceText(s[..FirstIndex(s, '.')], true, s[FirstIndex(s, '.') + 1..])
    ensures FirstIndex(s, '.') == |s| ==> s == PriceText(s, false, "")
  {
    var i := FirstIndex(s, '.');
    if i < |s| {
      SplitAtDot(s, i);
    }
  }

  lemma SplitAtDot(s: string, i: nat)
    requires i < |s| && s[i] == '.'
    ensures s == PriceText(s[..i], true, s[i + 1..])
  {
    assert s == s[..i] + ("." + s[i + 1..]);
  }

  /** An accepted price is a number with at most 18 decimal places. */
  lemma PricePatternParses(s: string)
    requires PricePattern(s)
    ensures ParseDecimal(s).Some? && ParseDecimal(s).value.places <= 18
  {
  }

  // ---------------------------------------------------------------------
  // Fraction price and remainder
  // ---------------------------------------------------------------------

  /** Decimals of the fraction token: 4 for a payment token with fewer than 8 decimals, else 6. */
  function FractionDecimals(paymentDecimals: nat): (d: nat)
    ensures d == 4 || d == 6
    ensures d == 4 <==> paymentDecimals < 8
  {
    if paymentDecimals < 8 then 4 else 6
  }

  /** `_fractionCount`: the fraction count in the fraction token's smallest units. */
  function FractionUnits(fractions: nat, paymentDecimals: nat): nat
  {
    fractions * Pow10(FractionDecimals(paymentDecimals))
  }

  /** `_reservePrice`: the reserve price in the payment token's smallest units. */
  function ScaledReserve(price: Decimal, paymentDecimals: nat): real
  {
    DecimalValue(price) * Pow10(paymentDecimals) as real
  }

  /** `fractionPrice`: payment units per fraction unit. */
  function FractionPrice(price: Decimal, paymentDecimals: nat, fractions: nat): real
    requires fractions >= 1
  {
    ScaledReserve(price, paymentDecimals) / FractionUnits(fractions, paymentDecimals) as real
  }

  /** `fractionPriceMod`: the remainder of the scaled reserve by the fraction units, kept exact. */
  function FractionPriceMod(price: Decimal, paymentDecimals: nat, fractions: nat): real
    requires fractions >= 1
  {
    (ScaledMantissa(price, paymentDecimals) % Modulus(price, paymentDecimals, fractions)) as real
      / Pow10(price.places) as real
  }

  /** The reserve price's digits in the payment token's units, before the decimal point is placed. */
  function ScaledMantissa(price: Decimal, paymentDecimals: nat): nat
  {
    price.mantissa * Pow10(paymentDecimals)
  }

  /** The fraction units with the reserve price's decimal places added. */
  function Modulus(price: Decimal, paymentDecimals: nat, fractions: nat): (m: nat)
    requires fractions >= 1
    ensures m >= 1
  {
    FractionUnits(fractions, paymentDecimals) * Pow10(price.places)
  }

  /**
   * The remainder is the true remainder of Euclidean division: the scaled
   * reserve is a whole number of fraction-unit multiples (the integer part of
   * the fraction price) plus a remainder below one multiple.
   */
  lemma FractionPriceDivision(price: Decimal, paymentDecimals: nat, fractions: nat)
    requires fractions >= 1
    ensures FractionPrice(price, paymentDecimals, fractions).Floor >= 0
    ensures 0.0 <= FractionPriceMod(price, paymentDecimals, fractions) < FractionUnits(fractions, paymentDecimals) as real
    ensures ScaledReserve(price, paymentDecimals)
      == FractionPrice(price, paymentDecimals, fractions).Floor as real * FractionUnits(fractions, paymentDecimals) as real
         + FractionPriceMod(price, paymentDecimals, fractions)
  {
    UnfoldDivision(price, paymentDecimals, fractions);
    AssembleDivision(ScaledReserve(price, paymentDecimals), FractionPrice(price, paymentDecimals, fractions),
                     FractionPriceMod(price, paymentDecimals, fractions), ScaledMantissa(price, paymentDecimals),
                     FractionUnits(fractions, paymentDecimals), Pow10(price.places));
  }

  /** The three quantities written over the integers `ScaledMantissa`, `FractionUnits` and `10^places`. */
  lemma UnfoldDivision(price: Decimal, paymentDecimals: nat, fractions: nat)
    requires fractions >= 1
    ensures var n := ScaledMantissa(price, paymentDecimals);
      var un := FractionUnits(fractions, paymentDecimals);
      var pk := Pow10(price.places);
      un >= 1
      && ScaledReserve(price, paymentDecimals) == n as real / pk as real
      && FractionPrice(price, paymentDecimals, fractions) == ScaledReserve(price, paymentDecimals) / un as real
      && FractionPriceMod(price, paymentDecimals, fractions) == (n % (un * pk)) as real / pk as real
  {
    DivThenMul(price.mantissa, Pow10(price.places), Pow10(paymentDecimals));
  }

  lemma AssembleDivision(x: real, price: real, mod: real, n: nat, un: nat, pk: nat)
    requires un >= 1 && pk >= 1
    requires x == n as real / pk as real && price == x / un as real
    requires mod == (n % (un * pk)) as real / pk as real
    ensures price.Floor >= 0 && 0.0 <= mod < un as real && x == price.Floor as real * un as real + mod
  {
    RealEuclid(n, un, pk);
  }

  lemma DivThenMul(a: nat, b: nat, c: nat)
    requires b >= 1
    ensures a as real / b as real * c as real == (a * c) as real / b as real
  {
    RealOfProduct(a, c);
    MulDiv(c as real, a as real, b as real);
  }

  lemma RealOfProduct(a: int, b: int)
    ensures (a * b) as real == a as real * b as real
  {
  }

  lemma MulDiv(a: real, b: real, p: real)
    requires p > 0.0
    ensures a * b / p == a * (b / p)
  {
  }

  lemma DivSplit(x: real, y: real, p: real)
    requires p > 0.0
    ensures (x + y) / p == x / p + y / p
  {
  }

  lemma FracBound(r: real, u: real, p: real)
    requires p > 0.0 && u > 0.0 && 0.0 <= r < u * p
    ensures 0.0 <= r / p < u
  {
  }

  /**
   * Euclidean division of `n` by `un * pk`, read on `n / pk`: quotient `q`
   * whole multiples of `un` and the scaled remainder `r / pk` below `un`.
   */
  lemma RealEuclid(n: nat, un: nat, pk: nat)
    requires un >= 1 && pk >= 1
    ensures var m := un * pk;
      var q := n / m;
      var x := n as real / pk as real;
      var f := (n % m) as real / pk as real;
      q >= 0 && 0.0 <= f < un as real && x == q as real * un as real + f
      && (x / un as real).Floor == q
  {
    var m := un * pk;
    var q := n / m;
    var r := n % m;
    IntEuclid(n, un, pk);
    RealParts(n as real, q as real, un as real, pk as real, r as real);
    FloorOfSum(q, r as real / pk as real / un as real);
  }

  /** Euclidean division by `un * pk`, over the reals. */
  lemma IntEuclid(n: nat, un: nat, pk: nat)
    requires un >= 1 && pk >= 1
    ensures var m := un * pk;
      n / m >= 0 && 0 <= n % m < m
      && n as real == (n / m) as real * un as real * pk as real + (n % m) as real
      && ((n % m) as real) < un as real * pk as real
  {
    var m := un * pk;
    var q := n / m;
    assert n == q * m + n % m;
    RealOfProduct(q, m);
    RealOfProduct(un, pk);
    assert (q * m) as real == q as real * (un as real * pk as real);
  }

  /** Dividing `q * u * p + r` by `p` and then by `u`, for a remainder below `u * p`. */
  lemma RealParts(nr: real, q: real, u: real, p: real, r: real)
    requires u >= 1.0 && p >= 1.0 && 0.0 <= r < u * p && q >= 0.0
    requires nr == q * u * p + r
    ensures nr / p == q * u + r / p
    ensures 0.0 <= r / p < u
    ensures nr / p / u == q + r / p / u
    ensures 0.0 <= r / p / u < 1.0
  {
    DivSplit(q * u * p, r, p);
    MulDiv(q * u, p, p);
    FracBound(r, u, p);
    DivSplit(q * u, r / p, u);
    MulDiv(q, u, u);
    FracBound(r / p, 1.0, u);
  }

  /** A whole number plus a fraction in [0, 1) floors to the whole number. */
  lemma FloorOfSum(q: int, g: real)
    requires 0.0 <= g < 1.0
    ensures (q as real + g).Floor == q
  {
  }

  /** The remainder is zero exactly when the fraction price is a whole number. */
  lemma ModZeroIffWholePrice(price: Decimal, paymentDecimals: nat, fractions: nat)
    requires fractions >= 1
    ensures FractionPriceMod(price, paymentDecimals, fractions) == 0.0
      <==> FractionPrice(price, paymentDecimals, fractions) == FractionPrice(price, paymentDecimals, fractions).Floor as real
  {
    FractionPriceDivision(price, paymentDecimals, fractions);
    var u := FractionUnits(fractions, paymentDecimals) as real;
    assert FractionPrice(price, paymentDecimals, fractions) == ScaledReserve(price, paymentDecimals) / u;
    WholeIffNoRemainder(ScaledReserve(price, paymentDecimals), u, FractionPrice(price, paymentDecimals, fractions),
                        FractionPriceMod(price, paymentDecimals, fractions));
  }

  /** `x = floor(x / u) * u + r` with `0 <= r < u`: `x / u` is whole exactly when `r` is zero. */
  lemma WholeIffNoRemainder(x: real, u: real, price: real, r: real)
    requires u >= 1.0 && price == x / u && 0.0 <= r < u
    requires x == price.Floor as real * u + r
    ensures r == 0.0 <==> price == price.Floor as real
  {
    var q := price.Floor;
    DivSplit(q as real * u, r, u);
    MulDiv(q as real, u, u);
    assert price == q as real + r / u;
  }

  /**
   * The remainder of the form's reserve-price text, `None` where BigNumber
   * yields NaN (the empty price).
   */
  function PriceMod(reservePrice: string, paymentDecimals: nat, fractions: nat): (r: Option<real>)
    requires fractions >= 1
    ensures r.None? <==> ParseDecimal(reservePrice).None?
    ensures r.Some? ==> r.value == FractionPriceMod(ParseDecimal(reservePrice).value, paymentDecimals, fractions)
  {
    match ParseDecimal(reservePrice)
    case None => None
    case Some(d) => Some(FractionPriceMod(d, paymentDecimals, fractions))
  }

  // ---------------------------------------------------------------------
  // The submit rule
  // ---------------------------------------------------------------------

  /**
   * `canFractionalize()`, which returns whether the Fractionalize button is
   * DISABLED: it is bound to the button's `disabled` attribute.  A NaN
   * remainder compares false.
   */
  function FractionalizeDisabled(release: bool, reservePrice: string, mod: Option<real>,
                                 isBox: bool, boxNftCount: Option<nat>, name: string, symbol: string): (disabled: bool)
    ensures !disabled ==> release && reservePrice != "" && reservePrice != "0"
    ensures !disabled ==> |name| >= 2 && |symbol| >= 2
    ensures !disabled ==> !(mod.Some? && mod.value > 0.0)
    ensures !disabled ==> !(isBox && boxNftCount == Some(0))
    ensures (release && reservePrice != "" && reservePrice != "0" && mod.Some? && mod.value <= 0.0
             && !(isBox && boxNftCount == Some(0)) && |name| >= 2 && |symbol| >= 2) ==> !disabled
  {
    !release || reservePrice == "" || reservePrice == "0" || (mod.Some? && mod.value > 0.0)
    || (isBox && boxNftCount == Some(0)) || |name| < 2 || |symbol| < 2
  }

  /**
   * A zero reserve price written as "0.0" is let through: the button is
   * enabled although the price is zero, which the form's error text
   * ("must be bigger than 0") forbids.
   */
  lemma ZeroPriceEnabled()
    ensures ParseDecimal("0.0") == Some(Decimal(0, 1))
    ensures DecimalValue(Decimal(0, 1)) == 0.0
    ensures PriceMod("0.0", 18, DefaultFractions) == Some(0.0)
    ensures !FractionalizeDisabled(true, "0.0", PriceMod("0.0", 18, DefaultFractions), false, None, "Ab", "AB")
  {
    var s := "0.0";
    assert FirstIndex(s, '.') == 1;
    assert s[..1] == "0" && s[2..] == "0";
    assert "0" + "0" == "00";
    assert DigitsValue("00") == 10 * DigitsValue("0") + 0;
    assert DigitsValue("0") == 10 * DigitsValue("") + 0;
  }

  /** The submit rule with a zero-valued price also disabling the button. */
  function FractionalizeDisabledCorrected(release: bool, reservePrice: string, paymentDecimals: nat,
                                          fractions: nat, isBox: bool, boxNftCount: Option<nat>,
                                          name: string, symbol: string): bool
    requires fractions >= 1
  {
    var p := ParseDecimal(reservePrice);
    FractionalizeDisabled(release, reservePrice, PriceMod(reservePrice, paymentDecimals, fractions),
                          isBox, boxNftCount, name, symbol)
    || (p.Some? && p.value.mantissa == 0)
  }

  /**
   * An enabled button under the corrected rule means a positive reserve
   * price, a whole fraction price, and a name and symbol of two characters
   * or more.
   */
  lemma CorrectedEnablesOnlyPositiveWholePrices(release: bool, reservePrice: string, paymentDecimals: nat,
                                                fractions: nat, isBox: bool, boxNftCount: Option<nat>,
                                                name: string, symbol: string)
    requires fractions >= 1
    requires PricePattern(reservePrice)
    requires !FractionalizeDisabledCorrected(release, reservePrice, paymentDecimals, fractions, isBox, boxNftCount, name, symbol)
    ensures ParseDecimal(reservePrice).Some?
    ensures var d := ParseDecimal(reservePrice).value;
      DecimalValue(d) > 0.0
      && FractionPrice(d, paymentDecimals, fractions) == FractionPrice(d, paymentDecimals, fractions).Floor as real
    ensures |name| >= 2 && |symbol| >= 2
  {
    var d := ParseDecimal(reservePrice).value;
    FractionPriceDivision(d, paymentDecimals, fractions);
    ModZeroIffWholePrice(d, paymentDecimals, fractions);
  }

  // ---------------------------------------------------------------------
  // Rounding a price that leaves a remainder
  // ---------------------------------------------------------------------

  /** `Math.round` of a non-negative decimal: the nearest whole number, a half rounded up. */
  function RoundHalfUp(d: Decimal): nat
  {
    var p := Pow10(d.places);
    Quotient(2 * d.mantissa + p, 2 * p)
  }

  function Quotient(a: nat, b: nat): nat
    requires b >= 1
  {
    a / b
  }

  lemma DivBounds(a: nat, b: nat)
    requires b >= 1
    ensures (a / b) * b <= a < (a / b + 1) * b
  {
    assert a == (a / b) * b + a % b;
  }

  /** The rounded value lies within one half of the price. */
  lemma RoundIsNearest(d: Decimal)
    ensures DecimalValue(d) - 0.5 < RoundHalfUp(d) as real <= DecimalValue(d) + 0.5
  {
    var p := Pow10(d.places);
    DivBounds(2 * d.mantissa + p, 2 * p);
    assert RoundHalfUp(d) == (2 * d.mantissa + p) / (2 * p);
    HalfBounds(RoundHalfUp(d), d.mantissa, p);
  }

  lemma HalfBounds(n: nat, m: nat, p: nat)
    requires p >= 1
    requires n * (2 * p) <= 2 * m + p < (n + 1) * (2 * p)
    ensures m as real / p as real - 0.5 < n as real <= m as real / p as real + 0.5
  {
    CastTwice(n, p);
    CastHalfUp(m, p);
    BoundsInReals(n * (2 * p), 2 * m + p, (n + 1) * (2 * p), n as real, m as real / p as real, p as real);
  }

  lemma BoundsInReals(lo: int, mid: int, hi: int, nr: real, x: real, pr: real)
    requires pr > 0.0 && lo <= mid < hi
    requires lo as real == pr * (2.0 * nr) && mid as real == pr * (2.0 * x + 1.0)
    requires hi as real == pr * (2.0 * (nr + 1.0))
    ensures x - 0.5 < nr <= x + 0.5
  {
    var l, m, h := lo as real, mid as real, hi as real;
    assert l <= m < h;
    CancelPositive(pr, 2.0 * nr, 2.0 * x + 1.0, l, m);
    CancelPositiveStrict(pr, 2.0 * x + 1.0, 2.0 * (nr + 1.0), m, h);
  }

  lemma CastTwice(n: nat, p: nat)
    ensures (n * (2 * p)) as real == p as real * (2.0 * n as real)
    ensures ((n + 1) * (2 * p)) as real == p as real * (2.0 * (n as real + 1.0))
  {
    RealOfProduct(n + 1, 2 * p);
    RealOfProduct(n, 2 * p);
  }

  lemma CastHalfUp(m: nat, p: nat)
    requires p >= 1
    ensures (2 * m + p) as real == p as real * (2.0 * (m as real / p as real) + 1.0)
  {
    var x := m as real / p as real;
    assert x * p as real == m as real;
  }

  lemma CancelPositive(p: real, a: real, b: real, pa: real, pb: real)
    requires p > 0.0 && pa == p * a && pb == p * b && pa <= pb
    ensures a <= b
  {
    assert pb - pa == p * (b - a);
  }

  lemma CancelPositiveStrict(p: real, a: real, b: real, pa: real, pb: real)
    requires p > 0.0 && pa == p * a && pb == p * b && pa < pb
    ensures a < b
  {
    assert pb - pa == p * (b - a);
  }

  /** The text `Math.round(Number(price)).toString()` writes back. */
  function RoundedPriceText(price: string): (t: string)
    requires ParseDecimal(price).Some?
    ensures PricePattern(t)
  {
    var t := NatToString(RoundHalfUp(ParseDecimal(price).value));
    DigitsHaveNoDot(t);
    t
  }

  /** A whole number's text reads back as that whole number with no decimal places. */
  lemma WholeTextParses(n: nat)
    ensures ParseDecimal(NatToString(n)) == Some(Decimal(n, 0))
  {
    var s := NatToString(n);
    DigitsHaveNoDot(s);
    assert s[..|s|] == s;
    assert s + [] == s;
    NatToStringValue(n);
  }

  /** Rounding is settled after one step: the rounded text rounds to itself. */
  lemma RoundingSettles(price: string)
    requires ParseDecimal(price).Some?
    ensures ParseDecimal(RoundedPriceText(price)).Some?
    ensures RoundedPriceText(RoundedPriceText(price)) == RoundedPriceText(price)
  {
    var n := RoundHalfUp(ParseDecimal(price).value);
    WholeTextParses(n);
    assert Pow10(0) == 1;
    assert RoundHalfUp(Decimal(n, 0)) == Quotient(2 * n + 1, 2) == n;
  }

  // ---------------------------------------------------------------------
  // The form state and its handlers
  // ---------------------------------------------------------------------

  class FractionalizeForm {
    var name: string
    var symbol: string
    var reservePrice: string
    var fractions: nat
    var release: bool
    var invalidSymbol: bool
    var invalidReservePrice: bool

    /** What the handlers keep true of the stored fields. */
    predicate Valid()
      reads this
    {
      |name| <= MaxNameLength && StoredSymbol(symbol)
      && (reservePrice == "" || PricePattern(reservePrice))
      && fractions in FractionOptions
    }

    constructor()
      ensures Valid()
      ensures name == "" && symbol == "" && reservePrice == "" && fractions == DefaultFractions
      ensures release && !invalidSymbol && !invalidReservePrice
    {
      name := "";
      symbol := "";
      reservePrice := "";
      fractions := DefaultFractions;
      release := true;
      invalidSymbol := false;
      invalidReservePrice := false;
    }

    /** A name of 1 to 40 characters is kept; anything else clears it. */
    method HandleName(v: string)
      requires Valid()
      modifies this
      ensures Valid()
      ensures name == (if 1 <= |v| <= MaxNameLength then v else "")
      ensures symbol == old(symbol) && reservePrice == old(reservePrice) && fractions == old(fractions)
      ensures release == old(release) && invalidSymbol == old(invalidSymbol)
      ensures invalidReservePrice == old(invalidReservePrice)
    {
      if |v| >= 1 && |v| <= MaxNameLength {
        name := v;
      } else {
        name := "";
      }
    }

    /** A non-empty run of letters and whitespace is stored upper-cased; anything else clears it. */
    method HandleSymbol(v: string)
      requires Valid()
      modifies this
      ensures Valid()
      ensures symbol == (if v != "" && LettersOnly(v) then Upper(v) else "")
      ensures name == old(name) && reservePrice == old(reservePrice) && fractions == old(fractions)
      ensures release == old(release) && invalidSymbol == old(invalidSymbol)
      ensures invalidReservePrice == old(invalidReservePrice)
    {
      if v != "" && LettersOnly(v) {
        UpperOfLettersIsStored(v);
        symbol := Upper(v);
      } else {
        symbol := "";
      }
    }

    /**
     * The typed price with its first comma made a dot.  Any non-empty price
     * other than "0" re-enables release, even one the pattern rejects; the
     * price itself is stored only when it matches the pattern or is empty.
     */
    method HandleReservePrice(v: string)
      requires Valid()
      modifies this
      ensures Valid()
      ensures var price := ReplaceFirst(v, ',', '.');
        release == (|price| > 0 && price != "0")
        && reservePrice == (if PricePattern(price) || price == "" then price else old(reservePrice))
      ensures name == old(name) && symbol == old(symbol) && fractions == old(fractions)
      ensures invalidSymbol == old(invalidSymbol) && invalidReservePrice == old(invalidReservePrice)
    {
      var price := ReplaceFirst(v, ',', '.');
      if |price| > 0 {
        release := true;
      }
      if |price| == 0 || price == "0" {
        release := false;
      }
      if PricePattern(price) || |price| == 0 {
        reservePrice := price;
      }
    }

    method HandleFractionsAmount(f: nat)
      requires Valid() && f in FractionOptions
      modifies this
      ensures Valid() && fractions == f
      ensures name == old(name) && symbol == old(symbol) && reservePrice == old(reservePrice)
      ensures release == old(release) && invalidSymbol == old(invalidSymbol)
      ensures invalidReservePrice == old(invalidReservePrice)
    {
      fractions := f;
    }

    /** The effect on `symbol`: a non-empty symbol is flagged unless it has 2 to 5 characters. */
    method SymbolEffect()
      requires Valid()
      modifies this
      ensures Valid()
      ensures symbol != "" ==> invalidSymbol == (|symbol| < 2 || |symbol| > 5)
      ensures symbol == "" ==> invalidSymbol == old(invalidSymbol)
      ensures name == old(name) && symbol == old(symbol) && reservePrice == old(reservePrice)
      ensures fractions == old(fractions) && release == old(release)
      ensures invalidReservePrice == old(invalidReservePrice)
    {
      if symbol != "" {
        invalidSymbol := |symbol| < 2 || |symbol| > 5;
      }
    }

    /** The effect on `reservePrice`: a non-empty price is flagged exactly when it is "0". */
    method ReservePriceEffect()
      requires Valid()
      modifies this
      ensures Valid()
      ensures reservePrice != "" ==> invalidReservePrice == (reservePrice == "0")
      ensures reservePrice == "" ==> invalidReservePrice == old(invalidReservePrice)
      ensures name == old(name) && symbol == old(symbol) && reservePrice == old(reservePrice)
      ensures fractions == old(fractions) && release == old(release)
      ensures invalidSymbol == old(invalidSymbol)
    {
      if reservePrice != "" {
        invalidReservePrice := reservePrice == "0";
      }
    }

    /** The form's current remainder under a payment token with `paymentDecimals` decimals. */
    function CurrentPriceMod(paymentDecimals: nat): (r: Option<real>)
      requires Valid()
      reads this
      ensures r.None? <==> reservePrice == ""
    {
      assert reservePrice != "" ==> ParseDecimal(reservePrice).Some? by {
        if reservePrice != "" { PricePatternParses(reservePrice); }
      }
      PriceMod(reservePrice, paymentDecimals, fractions)
    }

    /**
     * The rounding effect: a price that leaves a remainder is replaced by
     * the text of its nearest whole number; any other price is left alone.
     */
    method RoundingEffect(paymentDecimals: nat)
      requires Valid()
      modifies this
      ensures Valid()
      ensures var m := old(CurrentPriceMod(paymentDecimals));
        m.Some? && m.value > 0.0 ==> reservePrice == RoundedPriceText(old(reservePrice))
      ensures var m := old(CurrentPriceMod(paymentDecimals));
        !(m.Some? && m.value > 0.0) ==> reservePrice == old(reservePrice)
      ensures name == old(name) && symbol == old(symbol) && fractions == old(fractions)
      ensures release == old(release) && invalidSymbol == old(invalidSymbol)
      ensures invalidReservePrice == old(invalidReservePrice)
    {
      var fractionPriceMod := CurrentPriceMod(paymentDecimals);
      if fractionPriceMod.Some? && fractionPriceMod.value > 0.0 {
        PricePatternParses(reservePrice);
        reservePrice := RoundedPriceText(reservePrice);
      }
    }
  }
}
