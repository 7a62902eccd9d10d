/**
 * Kotlin's 32-bit `Int` as seen through `String.toIntOrNull()` and
 * `Int.toString()`, restricted to the ASCII digits '0'..'9'.
 */
module KotlinInts {
  import opened Wrappers

  const IntMin: int := -2147483648
  const IntMax: int := 2147483647

  /** The value fits in a Kotlin `Int`. */
  predicate IsInt(n: int) {
    IntMin <= n <= IntMax
  }

  predicate IsDigit(c: char) {
    '0' <= c <= '9'
  }

  predicate AllDigits(s: string) {
    forall k :: 0 <= k < |s| ==> IsDigit(s[k])
  }

  function DigitValue(c: char): (d: nat)
    requires IsDigit(c)
    ensures d < 10
  {
    c as int - '0' as int
  }

  function DigitChar(d: nat): (c: char)
    requires d < 10
    ensures IsDigit(c) && DigitValue(c) == d
  {
    (d + '0' as int) as char
  }

  /** The value of a string of decimal digits, most significant first;
      leading zeros add nothing. */
  function DigitsValue(s: string): nat
    requires AllDigits(s)
  {
    if |s| == 0 then 0 else DigitsValue(s[..|s| - 1]) * 10 + DigitValue(s[|s| - 1])
  }

  /** The value of a digit string, negated when a '-' came before it. */
  function SignedValue(digits: string, negative: bool): int
    requires AllDigits(digits)
  {
    if negative then 0 - DigitsValue(digits) else DigitsValue(digits)
  }

  /** The text after an optional leading '-' or '+'. */
  function DigitsPart(s: string): string {
    if |s| > 0 && (s[0] == '-' || s[0] == '+') then s[1..] else s
  }

  /** The digit loop of `toIntOrNull`: every character after the sign must
      be a digit, and the signed value must stay inside the `Int` range. */
  function SignedDigits(digits: string, negative: bool): (r: Option<int>)
    ensures r.Some? <==> AllDigits(digits) && IsInt(SignedValue(digits, negative))
    ensures r.Some? ==> r.value == SignedValue(digits, negative)
  {
    if !AllDigits(digits) then None
    else
      var v := SignedValue(digits, negative);
      if IsInt(v) then Some(v) else None
  }

  /** `String.toIntOrNull()` in radix 10: an optional leading '-' or '+',
      then at least one digit; null when that shape is not met or the value
      overflows `Int`. */
  function ToIntOrNull(s: string): (r: Option<int>)
    ensures r.Some? ==> IsInt(r.value) && |s| > 0
  {
    if |s| == 0 then None
    else if s[0] < '0' then
      if |s| == 1 then None
      else if s[0] == '-' then SignedDigits(s[1..], true)
      else if s[0] == '+' then SignedDigits(s[1..], false)
      else None
    else SignedDigits(s, false)
  }

  /** What `toIntOrNull` reads, for every text: after an optional leading
      sign there must be at least one digit and nothing but digits, and the
      signed value must fit in `Int`; the result is then that value, and
      null otherwise. */
  lemma ToIntOrNullForm(s: string)
    ensures ToIntOrNull(s).Some? <==>
      var d := DigitsPart(s);
      |d| > 0 && AllDigits(d) && IsInt(SignedValue(d, |s| > 0 && s[0] == '-'))
    ensures ToIntOrNull(s).Some? ==> ToIntOrNull(s).value == SignedValue(DigitsPart(s), s[0] == '-')
  {
  }

  /** Decimal digits of a natural number, with no leading zero. */
  function NatToDecimal(n: nat): (s: string)
    ensures |s| > 0 && AllDigits(s) && DigitsValue(s) == n
    ensures |s| > 1 ==> s[0] != '0'
    decreases n
  {
    if n < 10 then [DigitChar(n)]
    else
      var p := NatToDecimal(n / 10);
      var s := p + [DigitChar(n % 10)];
      assert s[..|s| - 1] == p;
      s
  }

  /** `Int.toString()`: a '-' for negative values, then the digits of the
      magnitude. */
  function IntToDecimal(n: int): (s: string)
    ensures |s| > 0 && (s[0] == '-' <==> n < 0)
    ensures n >= 0 ==> AllDigits(s)
    ensures var d := DigitsPart(s);
      |d| > 0 && AllDigits(d) && SignedValue(d, n < 0) == n && (|d| > 1 ==> d[0] != '0')
  {
    if n < 0 then "-" + NatToDecimal(-n) else NatToDecimal(n)
  }

  function Pow10(k: nat): nat {
    if k == 0 then 1 else 10 * Pow10(k - 1)
  }

  /** A natural number below 10^k is printed with at most k digits. */
  lemma {:induction false} NatToDecimalLength(n: nat, k: nat)
    requires 1 <= k && n < Pow10(k)
    ensures |NatToDecimal(n)| <= k
  {
    if n >= 10 {
      NatToDecimalLength(n / 10, k - 1);
    }
  }

  /** Printing an `Int` and parsing it back gives the same `Int`. */
  lemma DecimalRoundTrip(n: int)
    requires IsInt(n)
    ensures ToIntOrNull(IntToDecimal(n)) == Some(n)
  {
  }

  /** A value of a digit string that does not start with '0' is positive. */
  lemma {:induction false} LeadingNonZeroPositive(s: string)
    requires |s| > 0 && AllDigits(s) && s[0] != '0'
    ensures DigitsValue(s) >= 1
  {
    if |s| > 1 {
      var p := s[..|s| - 1];
      assert p[0] == s[0];
      LeadingNonZeroPositive(p);
    }
  }

  /** The digits without leading zero are the only spelling of a natural
      number: such a string is exactly what `toString` prints for its value. */
  lemma {:induction false} CanonicalDecimalUnique(s: string)
    requires |s| > 0 && AllDigits(s)
    requires |s| > 1 ==> s[0] != '0'
    ensures NatToDecimal(DigitsValue(s)) == s
  {
    if |s| > 1 {
      var p := s[..|s| - 1];
      assert p[0] == s[0];
      LeadingNonZeroPositive(p);
      CanonicalDecimalUnique(p);
      assert s == p + [s[|s| - 1]];
    }
  }

  /** The value of "2147483648", one more than the largest `Int`. */
  lemma ValueOfIntMaxPlusOne()
    ensures AllDigits("2147483648") && DigitsValue("2147483648") == IntMax + 1
  {
    assert "21"[..1] == "2";
    assert DigitsValue("2") == 2;
    assert "214"[..2] == "21";
    assert DigitsValue("21") == 21;
    assert "2147"[..3] == "214";
    assert DigitsValue("214") == 214;
    assert "21474"[..4] == "2147";
    assert DigitsValue("2147") == 2147;
    assert "214748"[..5] == "21474";
    assert DigitsValue("21474") == 21474;
    assert "2147483"[..6] == "214748";
    assert DigitsValue("214748") == 214748;
    assert "21474836"[..7] == "2147483";
    assert DigitsValue("2147483") == 2147483;
    assert "214748364"[..8] == "21474836";
    assert DigitsValue("21474836") == 21474836;
    assert "2147483648"[..9] == "214748364";
    assert DigitsValue("214748364") == 214748364;
  }

  /** A leading '+' and leading zeros are accepted, and printing the value
      drops them. */
  lemma PlusAndLeadingZeros()
    ensures ToIntOrNull("+0100") == Some(100) && IntToDecimal(100) == "100"
  {
    assert "+0100"[1..] == "0100";
    assert "0100"[..3] == "010" && "010"[..2] == "01" && "01"[..1] == "0";
    assert DigitsValue("0") == 0 && DigitsValue("01") == 1 && DigitsValue("010") == 10;
    assert DigitsValue("0100") == 100;
    assert NatToDecimal(1) == "1" && NatToDecimal(10) == "10";
  }

  /** The smallest `Int` is read; one past the largest overflows to null. */
  lemma IntRangeEdges()
    ensures ToIntOrNull("-2147483648") == Some(IntMin)
    ensures ToIntOrNull("2147483648") == None
  {
    ValueOfIntMaxPlusOne();
    assert "-2147483648"[1..] == "2147483648";
  }

  /** A sign alone, an empty text, inner blanks and a doubled sign are not numbers. */
  lemma MalformedNumbers()
    ensures ToIntOrNull("+") == None && ToIntOrNull("-") == None && ToIntOrNull("") == None
    ensures ToIntOrNull("1 0") == None && ToIntOrNull("--1") == None
  {
  }
}
