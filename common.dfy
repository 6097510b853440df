/**
 * Shared vocabulary of the front-end model: optional values, the JavaScript
 * truthiness of optional strings, ASCII lower-casing of addresses, the
 * first-occurrence string replace, decimal strings and power-of-ten scaling.
 */
module Common {

  datatype Option<T> = None | Some(value: T)

  /** A value that is present and not the empty string (JavaScript truthiness). */
  predicate Truthy(s: Option<string>)
  {
    s.Some? && s.value != ""
  }

  /** `s || d` on an optional string. */
  function OrElse(s: Option<string>, d: string): string
  {
    if Truthy(s) then s.value else d
  }

  /** `s || ''` on an optional string. */
  function OrEmpty(s: Option<string>): string
  {
    OrElse(s, "")
  }

  // ---------------------------------------------------------------------
  // Lower-casing (ASCII letters only; addresses and ids are hexadecimal)
  // ---------------------------------------------------------------------

  function LowerChar(c: char): char
  {
    if 'A' <= c <= 'Z' then (c as int + 32) as char else c
  }

  function Lower(s: string): (r: string)
    ensures |r| == |s|
    ensures forall i :: 0 <= i < |s| ==> r[i] == LowerChar(s[i])
  {
    seq(|s|, i requires 0 <= i < |s| => LowerChar(s[i]))
  }

  lemma LowerIdempotent(s: string)
    ensures Lower(Lower(s)) == Lower(s)
  {
  }

  lemma LowerConcat(a: string, b: string)
    ensures Lower(a + b) == Lower(a) + Lower(b)
  {
  }

  predicate EqualsIgnoreCase(a: string, b: string)
  {
    Lower(a) == Lower(b)
  }

  // ---------------------------------------------------------------------
  // String.prototype.replace with a one-character pattern: first occurrence
  // ---------------------------------------------------------------------

  /** Index of the first `c` in `s`, or `|s|` when there is none. */
  function FirstIndex(s: string, c: char): (i: nat)
    ensures i <= |s|
    ensures i < |s| ==> s[i] == c
    ensures forall j :: 0 <= j < i ==> s[j] != c
  {
    if s == [] then 0
    else if s[0] == c then 0
    else 1 + FirstIndex(s[1..], c)
  }

  /** The first occurrence is the position before which the character does not occur. */
  lemma {:induction false} FirstIndexAt(s: string, c: char, k: nat)
    requires k < |s| && s[k] == c
    requires forall j :: 0 <= j < k ==> s[j] != c
    ensures FirstIndex(s, c) == k
    decreases k
  {
    if k > 0 {
      FirstIndexAt(s[1..], c, k - 1);
    }
  }

  function ReplaceFirst(s: string, a: char, b: char): string
    decreases |s|
  {
    if s == [] then []
    else if s[0] == a then [b] + s[1..]
    else [s[0]] + ReplaceFirst(s[1..], a, b)
  }

  /** Only the first occurrence changes; a string without `a` is returned as is. */
  lemma {:induction false} ReplaceFirstSpec(s: string, a: char, b: char)
    ensures var i := FirstIndex(s, a);
            if i == |s| then ReplaceFirst(s, a, b) == s
            else ReplaceFirst(s, a, b) == s[..i] + [b] + s[i + 1..]
    decreases |s|
  {
    if s != [] && s[0] != a {
      ReplaceFirstSpec(s[1..], a, b);
      var i := FirstIndex(s[1..], a);
      if i < |s[1..]| {
        assert s[..i + 1] == [s[0]] + s[1..][..i];
        assert s[i + 2..] == s[1..][i + 1..];
      }
    }
  }

  // ---------------------------------------------------------------------
  // Decimal digits and decimal strings
  // ---------------------------------------------------------------------

  predicate IsDigit(c: char)
  {
    '0' <= c <= '9'
  }

  predicate AllDigits(s: string)
  {
    forall i :: 0 <= i < |s| ==> IsDigit(s[i])
  }

  function DigitValue(c: char): nat
    requires IsDigit(c)
  {
    c as int - '0' as int
  }

  /** The natural number a string of decimal digits denotes (most significant first). */
  function DigitsValue(s: string): nat
    requires AllDigits(s)
  {
    if s == [] then 0 else 10 * DigitsValue(s[..|s| - 1]) + DigitValue(s[|s| - 1])
  }

  function Pow10(n: nat): (r: nat)
    ensures r >= 1
  {
    if n == 0 then 1 else 10 * Pow10(n - 1)
  }

  lemma {:induction false} Pow10Add(a: nat, b: nat)
    ensures Pow10(a + b) == Pow10(a) * Pow10(b)
  {
    if b > 0 {
      Pow10Add(a, b - 1);
      assert Pow10(a + b) == 10 * Pow10(a + b - 1);
    }
  }

  /** `x` shifted by `d` decimal places: BigNumber's `shiftedBy`, the source's `scale`. */
  function Scale(x: real, d: int): real
  {
    if d >= 0 then x * Pow10(d) as real else x / Pow10(-d) as real
  }

  lemma ScaleInverse(x: real, d: int)
    ensures Scale(Scale(x, d), -d) == x
  {
    if d > 0 {
      var p := Pow10(d) as real;
      assert Scale(x, d) == x * p;
      assert Scale(x * p, -d) == x * p / p;
    } else if d < 0 {
      var p := Pow10(-d) as real;
      assert Scale(x / p, -d) == x / p * p;
    }
  }

  lemma ScalePositive(x: real, d: int)
    ensures Scale(x, d) > 0.0 <==> x > 0.0
  {
  }

  /** Decimal digit string of a natural number (`String(n)` / `n.toString()`). */
  function NatToString(n: nat): (s: string)
    ensures |s| >= 1
    ensures AllDigits(s)
    decreases n
  {
    if n < 10 then [('0' as int + n) as char]
    else NatToString(n / 10) + [('0' as int + n % 10) as char]
  }

  lemma {:induction false} NatToStringValue(n: nat)
    ensures DigitsValue(NatToString(n)) == n
    decreases n
  {
    if n >= 10 {
      NatToStringValue(n / 10);
      var s := NatToString(n);
      assert s[..|s| - 1] == NatToString(n / 10);
    }
  }

  /** Different numbers have different digit strings. */
  lemma NatToStringInjective(m: nat, n: nat)
    ensures NatToString(m) == NatToString(n) ==> m == n
  {
    NatToStringValue(m);
    NatToStringValue(n);
  }

  /** A non-negative decimal `mantissa / 10^places`. */
  datatype Decimal = Decimal(mantissa: nat, places: nat)

  function DecimalValue(d: Decimal): real
  {
    d.mantissa as real / Pow10(d.places) as real
  }

  /**
   * The numeric value of a plain decimal string, as `Number(s)` and
   * `new BigNumber(s)` read it: `digits`, `digits.`, `digits.digits` or
   * `.digits`; anything else is NaN (`None`).
   */
  function ParseDecimal(s: string): (r: Option<Decimal>)
    ensures r.Some? ==> r.value.places <= |s|
  {
    var i := FirstIndex(s, '.');
    var whole := s[..i];
    var frac := if i < |s| then s[i + 1..] else [];
    if AllDigits(whole) && AllDigits(frac) && (|whole| > 0 || |frac| > 0) then
      Some(Decimal(DigitsValue(whole + frac), |frac|))
    else
      None
  }

  lemma DigitsValueAppend(s: string, c: char)
    requires AllDigits(s) && IsDigit(c)
    ensures AllDigits(s + [c])
    ensures DigitsValue(s + [c]) == 10 * DigitsValue(s) + DigitValue(c)
  {
    assert (s + [c])[..|s|] == s;
  }

  // ---------------------------------------------------------------------
  // Chains
  // ---------------------------------------------------------------------

  /**
   * `!allowedChains.find(id => id === chainId)`: the alert shown by pages
   * that only work on some chains. `find` returns the id itself, so chain 0
   * is falsy and alerts even when it is in the list.
   */
  predicate UnsupportedChain(chainId: int, allowed: seq<int>)
  {
    chainId !in allowed || chainId == 0
  }

  /** Stands for the generic failure notice, code 5011 of the error table (its text is not part of this model). */
  const ErrorNotice: string := "error 5011"
}
